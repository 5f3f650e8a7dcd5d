/**
 * sort_into_kspace: Cartesian gridding of a group of readouts by their phase
 * and partition encode steps, with averaging of repeated encodes. The
 * PowerGrid and spiral DREAM pipelines size the grid from the matrix x and z
 * (readout twice x, phase x); the BART PICS pipeline from x, y and z.
 */
module KSpaceSort {
  import opened Mrd
  import opened ReconCalls

  /** The grid [ny][nz][nc][nx] is allocated for these sizes. */
  datatype Geometry = Geometry(nx: nat, ny: nat, nz: nat)

  /** Grid of the PowerGrid and spiral DREAM pipelines. */
  function PowerGridGeometry(m: MatrixSize): Geometry
  {
    Geometry(2 * m.x, m.x, m.z)
  }

  /** Grid of the BART PICS pipeline. */
  function PicsGeometry(m: MatrixSize): Geometry
  {
    Geometry(m.x, m.y, m.z)
  }

  /** The per-cell hit counter is numpy uint16 and wraps at this modulus. */
  const CounterModulus: nat := 0x1_0000

  datatype SortError = EmptyGroup | EncodeOutOfRange | ShapeMismatch

  /** One grid cell, [channel][readout column]. */
  type Cell = seq<seq<Complex>>

  /** Sorted k-space in BART order [nx][ny][nz][nc]. */
  type KSpace = seq<seq<seq<seq<Complex>>>>

  /** A sort of a group (with an optional prewhitening matrix) into k-space, as a pipeline binds it. */
  type KSpaceSorter = (seq<Acquisition>, Option<Prewhitening>) -> Result<KSpace, SortError>

  function ZeroCell(nc: nat, nx: nat): (c: Cell)
    ensures |c| == nc && forall ch :: 0 <= ch < nc ==> c[ch] == Zeros(nx)
  {
    seq(nc, _ => Zeros(nx))
  }

  predicate CellShaped(c: Cell, nc: nat, nx: nat)
  {
    |c| == nc && forall ch :: 0 <= ch < nc ==> |c[ch]| == nx
  }

  function AddCell(a: Cell, b: Cell, nc: nat, nx: nat): (c: Cell)
    requires CellShaped(a, nc, nx) && CellShaped(b, nc, nx)
    ensures CellShaped(c, nc, nx)
    ensures forall ch, x :: 0 <= ch < nc && 0 <= x < nx ==> c[ch][x] == Add(a[ch][x], b[ch][x])
  {
    seq(nc, ch requires 0 <= ch < nc => seq(nx, x requires 0 <= x < nx => Add(a[ch][x], b[ch][x])))
  }

  /** numpy slice(start, stop) on an axis of length n, as the index range [lo, hi) it selects. */
  function SliceBounds(start: int, stop: int, n: nat): (b: (nat, nat))
    ensures b.0 <= n && b.1 <= n
    ensures 0 <= start <= stop <= n ==> b == (start, stop)
  {
    var lo := if start < 0 then (if start + n < 0 then 0 else start + n) else (if start > n then n else start);
    var hi := if stop < 0 then (if stop + n < 0 then 0 else stop + n) else (if stop > n then n else stop);
    (lo, hi)
  }

  /** The readout columns of an ncol-sample readout: slice(nx//2 - ncol//2, nx//2 + ncol//2). */
  function ReadoutWindow(ncol: nat, nx: nat): (nat, nat)
  {
    SliceBounds(nx / 2 - ncol / 2, nx / 2 + ncol / 2, nx)
  }

  function Width(w: (nat, nat)): nat
  {
    if w.1 > w.0 then w.1 - w.0 else 0
  }

  /**
   * An even readout no longer than the grid lands centred, in exactly ncol
   * columns starting at nx//2 - ncol//2.
   */
  lemma EvenReadoutCentred(ncol: nat, nx: nat)
    requires ncol % 2 == 0 && ncol <= nx
    ensures ReadoutWindow(ncol, nx) == (nx / 2 - ncol / 2, nx / 2 + ncol / 2)
    ensures Width(ReadoutWindow(ncol, nx)) == ncol && ncol != 1
  {
    assert nx / 2 + ncol / 2 <= nx;
  }

  /** Largest phase encode step of the group, starting from 0. */
  function MaxStep1(group: seq<Acquisition>): (m: nat)
    ensures forall i :: 0 <= i < |group| ==> group[i].idx.step1 <= m
    ensures m == 0 || exists i :: 0 <= i < |group| && group[i].idx.step1 == m
  {
    if |group| == 0 then 0
    else
      var m := MaxStep1(group[..|group| - 1]);
      if group[|group| - 1].idx.step1 > m then group[|group| - 1].idx.step1 else m
  }

  /** Largest partition encode step of the group, starting from 0. */
  function MaxStep2(group: seq<Acquisition>): (m: nat)
    ensures forall i :: 0 <= i < |group| ==> group[i].idx.step2 <= m
    ensures m == 0 || exists i :: 0 <= i < |group| && group[i].idx.step2 == m
  {
    if |group| == 0 then 0
    else
      var m := MaxStep2(group[..|group| - 1]);
      if group[|group| - 1].idx.step2 > m then group[|group| - 1].idx.step2 else m
  }

  /** The recentring shift n//2 - (max+1)//2 under zf_around_center, else 0. */
  function CentreShift(zf: bool, n: nat, encMax: nat): int
  {
    if zf then n / 2 - (encMax + 1) / 2 else 0
  }

  /** Everything one sort needs besides the group itself. */
  datatype SortParams = SortParams(geom: Geometry, nc: nat, dmtx: Option<Prewhitening>, whiten: Whitening,
                                   shift1: int, shift2: int)

  function ParamsFor(group: seq<Acquisition>, geom: Geometry, nc: nat, dmtx: Option<Prewhitening>,
                     whiten: Whitening, zf: bool): SortParams
  {
    SortParams(geom, nc, dmtx, whiten,
               CentreShift(zf, geom.ny, MaxStep1(group)), CentreShift(zf, geom.nz, MaxStep2(group)))
  }

  /** The grid cell [enc1, enc2] a readout lands in, with numpy's negative-index wrap. */
  function Target(a: Acquisition, p: SortParams): (Option<nat>, Option<nat>)
  {
    (PyIndex(a.idx.step1 + p.shift1, p.geom.ny), PyIndex(a.idx.step2 + p.shift2, p.geom.nz))
  }

  /**
   * The error, if any, that adding this readout raises: an encode index
   * outside the grid, or data that does not broadcast onto [nc][window].
   */
  function Check(a: Acquisition, p: SortParams): Option<SortError>
  {
    var t := Target(a, p);
    var rows := Whitened(a.data, p.dmtx, p.whiten);
    var w := Width(ReadoutWindow(a.samples, p.geom.nx));
    if t.0.None? || t.1.None? then Some(EncodeOutOfRange)
    else if |rows| != p.nc && |rows| != 1 then Some(ShapeMismatch)
    else if a.samples != w && a.samples != 1 then Some(ShapeMismatch)
    else None
  }

  predicate Lands(a: Acquisition, p: SortParams, y: nat, z: nat)
  {
    Target(a, p) == (Some(y), Some(z))
  }

  /** The first error raised while adding the readouts in order. */
  function FirstError(group: seq<Acquisition>, p: SortParams): (e: Option<SortError>)
    ensures e.None? <==> forall i :: 0 <= i < |group| ==> Check(group[i], p).None?
  {
    if |group| == 0 then None
    else if FirstError(group[..|group| - 1], p).Some? then FirstError(group[..|group| - 1], p)
    else Check(group[|group| - 1], p)
  }

  lemma {:induction false} FirstErrorOfPrefix(group: seq<Acquisition>, p: SortParams, n: nat)
    requires n <= |group| && FirstError(group[..n], p).Some?
    ensures FirstError(group, p) == FirstError(group[..n], p)
    decreases |group| - n
  {
    if n < |group| {
      assert group[..n + 1][..n] == group[..n];
      FirstErrorOfPrefix(group, p, n + 1);
    } else {
      assert group[..n] == group;
    }
  }

  /**
   * The [nc][nx] increment one readout adds to its cell: its (prewhitened)
   * rows broadcast over channels or columns onto its readout window. Data
   * that does not broadcast adds nothing (the sort fails on it anyway).
   */
  function Contribution(a: Acquisition, p: SortParams): (c: Cell)
    ensures CellShaped(c, p.nc, p.geom.nx)
  {
    var rows := Whitened(a.data, p.dmtx, p.whiten);
    var w := ReadoutWindow(a.samples, p.geom.nx);
    if || (|rows| != p.nc && |rows| != 1)
       || (a.samples != Width(w) && a.samples != 1)
       || exists ch | 0 <= ch < |rows| :: |rows[ch]| != a.samples
    then ZeroCell(p.nc, p.geom.nx)
    else Spread(rows, a.samples, w, p.nc, p.geom.nx)
  }

  /**
   * [nc'][ncol] data broadcast onto columns [w.0, w.1) of an [nc][nx] cell:
   * a single row serves every channel and a single sample every column.
   */
  function Spread(rows: seq<seq<Complex>>, ncol: nat, w: (nat, nat), nc: nat, nx: nat): (c: Cell)
    requires |rows| == nc || |rows| == 1
    requires forall ch :: 0 <= ch < |rows| ==> |rows[ch]| == ncol
    requires ncol == Width(w) || ncol == 1
    requires w.1 <= nx
    ensures CellShaped(c, nc, nx)
  {
    seq(nc, ch requires 0 <= ch < nc =>
      seq(nx, x requires 0 <= x < nx =>
        if w.0 <= x < w.1 then rows[if |rows| == 1 then 0 else ch][if ncol == 1 then 0 else x - w.0]
        else Zero))
  }

  /** Sum of the increments of the readouts that land in cell [y, z]. */
  function CellSum(group: seq<Acquisition>, p: SortParams, y: nat, z: nat): (c: Cell)
    ensures CellShaped(c, p.nc, p.geom.nx)
  {
    if |group| == 0 then ZeroCell(p.nc, p.geom.nx)
    else
      var prev := CellSum(group[..|group| - 1], p, y, z);
      var last := group[|group| - 1];
      if Lands(last, p, y, z) then AddCell(prev, Contribution(last, p), p.nc, p.geom.nx) else prev
  }

  /** Number of readouts that land in cell [y, z]. */
  function Hits(group: seq<Acquisition>, p: SortParams, y: nat, z: nat): (n: nat)
    ensures n <= |group|
  {
    if |group| == 0 then 0
    else Hits(group[..|group| - 1], p, y, z) + (if Lands(group[|group| - 1], p, y, z) then 1 else 0)
  }

  /** kspace /= max(1, counter), with the uint16 counter value. */
  function Averaged(c: Cell, counter: nat, nc: nat, nx: nat): (r: Cell)
    requires CellShaped(c, nc, nx)
    ensures CellShaped(r, nc, nx)
    ensures forall ch, x :: 0 <= ch < nc && 0 <= x < nx ==>
      r[ch][x] == DivReal(c[ch][x], if counter > 1 then counter as real else 1.0)
  {
    var k: real := if counter > 1 then counter as real else 1.0;
    seq(nc, ch requires 0 <= ch < nc => seq(nx, x requires 0 <= x < nx => DivReal(c[ch][x], k)))
  }

  /** The averaged cell [y, z] of the whole group. */
  function AveragedCell(group: seq<Acquisition>, p: SortParams, y: nat, z: nat): (c: Cell)
    ensures CellShaped(c, p.nc, p.geom.nx)
  {
    Averaged(CellSum(group, p, y, z), Hits(group, p, y, z) % CounterModulus, p.nc, p.geom.nx)
  }

  /**
   * What sort_into_kspace returns: for a non-empty group whose readouts all
   * fit, the averaged grid permuted to [nx][ny][nz][nc].
   */
  function KSpaceOf(group: seq<Acquisition>, geom: Geometry, nc: nat, dmtx: Option<Prewhitening>,
                    whiten: Whitening, zf: bool): (r: Result<KSpace, SortError>)
    ensures |group| == 0 ==> r == Failure(EmptyGroup)
    ensures r.Success? ==> |r.value| == geom.nx
    ensures r.Success? ==> forall x :: 0 <= x < geom.nx ==> |r.value[x]| == geom.ny
    ensures r.Success? ==> forall x, y :: 0 <= x < geom.nx && 0 <= y < geom.ny ==> |r.value[x][y]| == geom.nz
    ensures r.Success? ==> forall x, y, z :: 0 <= x < geom.nx && 0 <= y < geom.ny && 0 <= z < geom.nz ==>
      |r.value[x][y][z]| == nc
  {
    var p := ParamsFor(group, geom, nc, dmtx, whiten, zf);
    if |group| == 0 then Failure(EmptyGroup)
    else if FirstError(group, p).Some? then Failure(FirstError(group, p).value)
    else Success(ToBartOrder(AveragedGrid(group, p), geom, nc))
  }

  /** The averaged grid [ny][nz] of cells. */
  function AveragedGrid(group: seq<Acquisition>, p: SortParams): (g: seq<seq<Cell>>)
    ensures GridShaped(g, p.geom, p.nc)
  {
    seq(p.geom.ny, y requires 0 <= y < p.geom.ny =>
      seq(p.geom.nz, z requires 0 <= z < p.geom.nz => AveragedCell(group, p, y, z)))
  }

  predicate GridShaped(g: seq<seq<Cell>>, geom: Geometry, nc: nat)
  {
    && |g| == geom.ny
    && (forall y :: 0 <= y < geom.ny ==> |g[y]| == geom.nz)
    && (forall y, z :: 0 <= y < geom.ny && 0 <= z < geom.nz ==> CellShaped(g[y][z], nc, geom.nx))
  }

  /** numpy transpose [3, 0, 1, 2]: [ny][nz][nc][nx] to [nx][ny][nz][nc]. */
  function ToBartOrder(g: seq<seq<Cell>>, geom: Geometry, nc: nat): (k: KSpace)
    requires GridShaped(g, geom, nc)
    ensures |k| == geom.nx
    ensures forall x :: 0 <= x < geom.nx ==> |k[x]| == geom.ny
    ensures forall x, y :: 0 <= x < geom.nx && 0 <= y < geom.ny ==> |k[x][y]| == geom.nz
    ensures forall x, y, z :: 0 <= x < geom.nx && 0 <= y < geom.ny && 0 <= z < geom.nz ==> |k[x][y][z]| == nc
    ensures forall x, y, z, ch :: 0 <= x < geom.nx && 0 <= y < geom.ny && 0 <= z < geom.nz && 0 <= ch < nc ==>
      k[x][y][z][ch] == g[y][z][ch][x]
  {
    seq(geom.nx, x requires 0 <= x < geom.nx =>
      seq(geom.ny, y requires 0 <= y < geom.ny =>
        seq(geom.nz, z requires 0 <= z < geom.nz =>
          seq(nc, ch requires 0 <= ch < nc => g[y][z][ch][x]))))
  }

  /** The first loop of sort_into_kspace: the largest encode steps, starting from 0. */
  method EncodeMaxima(group: seq<Acquisition>) returns (max1: nat, max2: nat)
    ensures max1 == MaxStep1(group) && max2 == MaxStep2(group)
  {
    max1, max2 := 0, 0;
    for i := 0 to |group|
      invariant max1 == MaxStep1(group[..i]) && max2 == MaxStep2(group[..i])
    {
      assert group[..i + 1][..i] == group[..i];
      if group[i].idx.step1 > max1 {
        max1 := group[i].idx.step1;
      }
      if group[i].idx.step2 > max2 {
        max2 := group[i].idx.step2;
      }
    }
    assert group[..|group|] == group;
  }

  /** The grid and counter hold the sums and the wrapped hit counts of a prefix of the group. */
  ghost predicate Accumulated(group: seq<Acquisition>, p: SortParams, kspace: array2<Cell>, counter: array2<nat>)
    reads kspace, counter
  {
    Summed(group, p, kspace) && Counted(group, p, counter)
  }

  ghost predicate Summed(group: seq<Acquisition>, p: SortParams, kspace: array2<Cell>)
    reads kspace
  {
    && kspace.Length0 == p.geom.ny && kspace.Length1 == p.geom.nz
    && forall y, z :: 0 <= y < p.geom.ny && 0 <= z < p.geom.nz ==> kspace[y, z] == CellSum(group, p, y, z)
  }

  ghost predicate Counted(group: seq<Acquisition>, p: SortParams, counter: array2<nat>)
    reads counter
  {
    && counter.Length0 == p.geom.ny && counter.Length1 == p.geom.nz
    && forall y, z :: 0 <= y < p.geom.ny && 0 <= z < p.geom.nz ==> counter[y, z] == Hits(group, p, y, z) % CounterModulus
  }

  lemma CellSumStep(group: seq<Acquisition>, p: SortParams, i: nat, y: nat, z: nat)
    requires i < |group|
    ensures CellSum(group[..i + 1], p, y, z) ==
      (if Lands(group[i], p, y, z) then AddCell(CellSum(group[..i], p, y, z), Contribution(group[i], p), p.nc, p.geom.nx)
       else CellSum(group[..i], p, y, z))
  {
    assert group[..i + 1][..i] == group[..i];
  }

  lemma CounterStep(group: seq<Acquisition>, p: SortParams, i: nat, y: nat, z: nat)
    requires i < |group|
    ensures Hits(group[..i + 1], p, y, z) % CounterModulus ==
      (if Lands(group[i], p, y, z) then (Hits(group[..i], p, y, z) % CounterModulus + 1) % CounterModulus
       else Hits(group[..i], p, y, z) % CounterModulus)
  {
    assert group[..i + 1][..i] == group[..i];
    WrapIncrement(Hits(group[..i], p, y, z));
  }

  /** Incrementing the wrapped counter wraps the incremented count. */
  lemma WrapIncrement(h: nat)
    ensures (h % CounterModulus + 1) % CounterModulus == (h + 1) % CounterModulus
  {
    var q, r := h / CounterModulus, h % CounterModulus;
    assert h + 1 == q * CounterModulus + (r + 1);
    if r + 1 == CounterModulus {
      assert h + 1 == (q + 1) * CounterModulus;
    }
  }

  /** kspace[enc1, enc2, :, col] += data for readout i, which lands in [y, z]. */
  method AddToCell(group: seq<Acquisition>, p: SortParams, i: nat, y: nat, z: nat, kspace: array2<Cell>)
    requires i < |group| && Target(group[i], p) == (Some(y), Some(z))
    requires Summed(group[..i], p, kspace)
    modifies kspace
    ensures Summed(group[..i + 1], p, kspace)
  {
    kspace[y, z] := AddCell(kspace[y, z], Contribution(group[i], p), p.nc, p.geom.nx);
    forall y', z' | 0 <= y' < p.geom.ny && 0 <= z' < p.geom.nz
      ensures kspace[y', z'] == CellSum(group[..i + 1], p, y', z')
    {
      assert Lands(group[i], p, y', z') <==> y' == y && z' == z;
      CellSumStep(group, p, i, y', z');
    }
  }

  /** counter[enc1, enc2] += 1 in uint16 for readout i, which lands in [y, z]. */
  method CountHit(group: seq<Acquisition>, p: SortParams, i: nat, y: nat, z: nat, counter: array2<nat>)
    requires i < |group| && Target(group[i], p) == (Some(y), Some(z))
    requires Counted(group[..i], p, counter)
    modifies counter
    ensures Counted(group[..i + 1], p, counter)
  {
    counter[y, z] := (counter[y, z] + 1) % CounterModulus;
    forall y', z' | 0 <= y' < p.geom.ny && 0 <= z' < p.geom.nz
      ensures counter[y', z'] == Hits(group[..i + 1], p, y', z') % CounterModulus
    {
      assert Lands(group[i], p, y', z') <==> y' == y && z' == z;
      CounterStep(group, p, i, y', z');
    }
  }

  /**
   * The second loop: every readout is added into its cell and counted there;
   * the first readout that does not fit stops the sort.
   */
  method Accumulate(group: seq<Acquisition>, p: SortParams, kspace: array2<Cell>, counter: array2<nat>)
    returns (e: Option<SortError>)
    requires Accumulated([], p, kspace, counter)
    modifies kspace, counter
    ensures e == FirstError(group, p)
    ensures e.None? ==> Accumulated(group, p, kspace, counter)
  {
    for i := 0 to |group|
      invariant FirstError(group[..i], p).None?
      invariant Accumulated(group[..i], p, kspace, counter)
    {
      assert group[..i + 1][..i] == group[..i];
      e := Check(group[i], p);
      if e.Some? {
        FirstErrorOfPrefix(group, p, i + 1);
        return;
      }
      var a := group[i];
      var y, z := Target(a, p).0.value, Target(a, p).1.value;
      AddToCell(group, p, i, y, z, kspace);
      CountHit(group, p, i, y, z, counter);
    }
    assert group[..|group|] == group;
    e := None;
  }

  /** kspace /= max(1, counter), in place; the averaged grid is returned as [ny][nz] cells. */
  method AverageCells(group: seq<Acquisition>, p: SortParams, kspace: array2<Cell>, counter: array2<nat>)
    returns (grid: seq<seq<Cell>>)
    requires Accumulated(group, p, kspace, counter)
    modifies kspace
    ensures grid == AveragedGrid(group, p)
  {
    forall y, z | 0 <= y < p.geom.ny && 0 <= z < p.geom.nz {
      kspace[y, z] := Averaged(kspace[y, z], counter[y, z], p.nc, p.geom.nx);
    }
    grid := seq(p.geom.ny, y requires 0 <= y < p.geom.ny reads kspace =>
              seq(p.geom.nz, z requires 0 <= z < p.geom.nz reads kspace => kspace[y, z]));
    forall y | 0 <= y < p.geom.ny
      ensures grid[y] == AveragedGrid(group, p)[y]
    {
      assert |grid[y]| == p.geom.nz;
      forall z | 0 <= z < p.geom.nz
        ensures grid[y][z] == AveragedGrid(group, p)[y][z]
      {
        assert grid[y][z] == kspace[y, z];
      }
    }
  }

  /** np.zeros for the grid and the counter. */
  method EmptyGrid(p: SortParams) returns (kspace: array2<Cell>, counter: array2<nat>)
    ensures fresh(kspace) && fresh(counter)
    ensures Accumulated([], p, kspace, counter)
  {
    kspace := new Cell[p.geom.ny, p.geom.nz]((y, z) => ZeroCell(p.nc, p.geom.nx));
    counter := new nat[p.geom.ny, p.geom.nz]((y, z) => 0);
  }

  /**
   * sort_into_kspace: find the encode maxima, accumulate every readout into
   * its cell while counting hits, divide each cell by max(1, count) and
   * permute to BART order.
   */
  method SortIntoKspace(group: seq<Acquisition>, geom: Geometry, nc: nat, dmtx: Option<Prewhitening>,
                        whiten: Whitening, zf: bool) returns (r: Result<KSpace, SortError>)
    ensures r == KSpaceOf(group, geom, nc, dmtx, whiten, zf)
  {
    if |group| == 0 {
      return Failure(EmptyGroup);
    }
    var max1, max2 := EncodeMaxima(group);
    var p := SortParams(geom, nc, dmtx, whiten, CentreShift(zf, geom.ny, max1), CentreShift(zf, geom.nz, max2));
    var kspace, counter := EmptyGrid(p);
    var e := Accumulate(group, p, kspace, counter);
    if e.Some? {
      return Failure(e.value);
    }
    var grid := AverageCells(group, p, kspace, counter);
    r := Success(ToBartOrder(grid, geom, nc));
  }

  // ---------------------------------------------------------------------
  // Averaging properties
  // ---------------------------------------------------------------------

  /** r added to itself n times, starting from zero. */
  function Repeat(n: nat, r: real): real
  {
    if n == 0 then 0.0 else Repeat(n - 1, r) + r
  }

  /** v added to itself n times, starting from zero. */
  function Scale(n: nat, v: Complex): Complex
  {
    Complex(Repeat(n, v.re), Repeat(n, v.im))
  }

  /** n copies of r sum to n * r. */
  lemma {:induction false} RepeatIsProduct(n: nat, r: real)
    ensures Repeat(n, r) == n as real * r
  {
    if n > 0 {
      RepeatIsProduct(n - 1, r);
      var k := (n - 1) as real;
      AddOneCopy(k, r);
      assert n as real == k + 1.0;
    }
  }

  lemma AddOneCopy(m: real, r: real)
    ensures m * r + r == (m + 1.0) * r
  {
  }

  lemma Cancels(k: real, r: real)
    requires k != 0.0
    ensures (k * r) / k == r
  {
  }

  /** Dividing n > 0 copies of v by n gives v back. */
  lemma ScaleAverage(n: nat, v: Complex)
    requires n > 0
    ensures DivReal(Scale(n, v), n as real) == v
  {
    RepeatIsProduct(n, v.re);
    RepeatIsProduct(n, v.im);
    Cancels(n as real, v.re);
    Cancels(n as real, v.im);
  }

  /** A cell whose readouts all add the same value v at [ch][x] holds hits copies of v there. */
  lemma {:induction false} CellSumUniform(group: seq<Acquisition>, p: SortParams, y: nat, z: nat, ch: nat, x: nat, v: Complex)
    requires ch < p.nc && x < p.geom.nx
    requires forall i :: 0 <= i < |group| && Lands(group[i], p, y, z) ==> Contribution(group[i], p)[ch][x] == v
    ensures CellSum(group, p, y, z)[ch][x] == Scale(Hits(group, p, y, z), v)
    decreases |group|
  {
    if |group| > 0 {
      var prefix := group[..|group| - 1];
      assert forall i :: 0 <= i < |prefix| ==> prefix[i] == group[i];
      CellSumUniform(prefix, p, y, z, ch, x, v);
      var h := Hits(prefix, p, y, z);
      var last := group[|group| - 1];
      if Lands(last, p, y, z) {
        LastStep(group, p, y, z, ch, x);
      }
    }
  }

  /** Adding the last readout of a group that lands in [y, z] adds its contribution and one hit. */
  lemma LastStep(group: seq<Acquisition>, p: SortParams, y: nat, z: nat, ch: nat, x: nat)
    requires |group| > 0 && ch < p.nc && x < p.geom.nx && Lands(group[|group| - 1], p, y, z)
    ensures CellSum(group, p, y, z)[ch][x] ==
      Add(CellSum(group[..|group| - 1], p, y, z)[ch][x], Contribution(group[|group| - 1], p)[ch][x])
    ensures Hits(group, p, y, z) == Hits(group[..|group| - 1], p, y, z) + 1
  {
  }

  /** No readout lands in the cell exactly when its hit count is zero. */
  lemma {:induction false} HitsCountsLanders(group: seq<Acquisition>, p: SortParams, y: nat, z: nat)
    ensures Hits(group, p, y, z) == 0 <==> forall i :: 0 <= i < |group| ==> !Lands(group[i], p, y, z)
    decreases |group|
  {
    if |group| > 0 {
      var prefix := group[..|group| - 1];
      assert forall i :: 0 <= i < |prefix| ==> prefix[i] == group[i];
      HitsCountsLanders(prefix, p, y, z);
    }
  }

  /** A grid cell no readout lands in stays zero after averaging. */
  lemma UnvisitedCellIsZero(group: seq<Acquisition>, p: SortParams, y: nat, z: nat, ch: nat, x: nat)
    requires ch < p.nc && x < p.geom.nx
    requires forall i :: 0 <= i < |group| ==> !Lands(group[i], p, y, z)
    ensures AveragedCell(group, p, y, z)[ch][x] == Zero
  {
    CellSumUniform(group, p, y, z, ch, x, Zero);
    HitsCountsLanders(group, p, y, z);
  }

  /**
   * A cell hit k times, 0 < k < 65536, by readouts that all add the same
   * value v at [ch][x] holds v there after averaging: dividing by the hit
   * counter undoes the accumulation.
   */
  lemma UniformCellIsAveraged(group: seq<Acquisition>, p: SortParams, y: nat, z: nat, ch: nat, x: nat, v: Complex)
    requires ch < p.nc && x < p.geom.nx
    requires forall i :: 0 <= i < |group| && Lands(group[i], p, y, z) ==> Contribution(group[i], p)[ch][x] == v
    requires 0 < Hits(group, p, y, z) < CounterModulus
    ensures AveragedCell(group, p, y, z)[ch][x] == v
  {
    CellSumUniform(group, p, y, z, ch, x, v);
    var k := Hits(group, p, y, z);
    ScaleAverage(k, v);
    CounterBelowModulus(k);
  }

  lemma CounterBelowModulus(k: nat)
    requires k < CounterModulus
    ensures k % CounterModulus == k
  {
  }

  /**
   * The hit counter is uint16: a cell hit exactly 65536 times by readouts
   * adding the same value v counts 0 hits and is divided by 1, so it holds
   * the sum of 65536 copies of v instead of their average v.
   */
  lemma WrappedCounterSkipsAveraging(group: seq<Acquisition>, p: SortParams, y: nat, z: nat, ch: nat, x: nat,
                                     v: Complex)
    requires ch < p.nc && x < p.geom.nx
    requires forall i :: 0 <= i < |group| && Lands(group[i], p, y, z) ==> Contribution(group[i], p)[ch][x] == v
    requires Hits(group, p, y, z) == CounterModulus
    ensures AveragedCell(group, p, y, z)[ch][x] == Scale(CounterModulus, v)
  {
    CellSumUniform(group, p, y, z, ch, x, v);
  }

  /** Entry [x][y][z][ch] of a successful sort is column x, channel ch of the averaged cell [y, z]. */
  lemma KSpaceEntry(group: seq<Acquisition>, geom: Geometry, nc: nat, dmtx: Option<Prewhitening>,
                    whiten: Whitening, zf: bool, x: nat, y: nat, z: nat, ch: nat)
    requires KSpaceOf(group, geom, nc, dmtx, whiten, zf).Success?
    requires x < geom.nx && y < geom.ny && z < geom.nz && ch < nc
    ensures KSpaceOf(group, geom, nc, dmtx, whiten, zf).value[x][y][z][ch] ==
      AveragedCell(group, ParamsFor(group, geom, nc, dmtx, whiten, zf), y, z)[ch][x]
  {
    var p := ParamsFor(group, geom, nc, dmtx, whiten, zf);
    assert KSpaceOf(group, geom, nc, dmtx, whiten, zf).value == ToBartOrder(AveragedGrid(group, p), geom, nc);
  }

  /**
   * Without prewhitening, a readout with one row per channel that fills its
   * readout window contributes the Spread of its own data (SpreadAt says
   * where each sample goes; EvenReadoutCentred where the window is).
   */
  lemma UnwhitenedContribution(a: Acquisition, p: SortParams)
    requires Shaped(a) && p.dmtx.None?
    requires |a.data| == p.nc && a.samples == Width(ReadoutWindow(a.samples, p.geom.nx))
    ensures Contribution(a, p) == Spread(a.data, a.samples, ReadoutWindow(a.samples, p.geom.nx), p.nc, p.geom.nx)
  {
    assert Whitened(a.data, p.dmtx, p.whiten) == a.data;
  }

  /** Without broadcasting, Spread places row ch at columns [w.0, w.1) and zero elsewhere. */
  lemma SpreadAt(rows: seq<seq<Complex>>, ncol: nat, w: (nat, nat), nc: nat, nx: nat, ch: nat, x: nat)
    requires |rows| == nc && (forall c :: 0 <= c < nc ==> |rows[c]| == ncol)
    requires ncol == Width(w) && ncol != 1 && w.1 <= nx
    requires ch < nc && x < nx
    ensures Spread(rows, ncol, w, nc, nx)[ch][x] == if w.0 <= x < w.1 then rows[ch][x - w.0] else Zero
  {
    if w.0 <= x < w.1 {
      assert (if |rows| == 1 then 0 else ch) == ch;
    }
  }
}
