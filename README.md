# Pulseq / JEMRIS reconstruction pipelines in Dafny

This project models the core of the python-ismrmrd-server reconstruction
pipelines for Pulseq and JEMRIS data:

- the protocol insertion helpers (`pulseq_prot.py`): `insert_hdr`, `insert_acq`, the
  shape of `calc_traj` and the GIRF gradient prediction `grad_pred`;
- Cartesian k-space gridding with averaging (`sort_into_kspace`);
- the spiral sorters (`sort_spiral_data`, `sort_data`);
- the four routing loops that turn a stream of MRD acquisitions into image groups:
  - the PowerGrid pipeline (`powergrid_pulseq.py`);
  - the spiral DREAM B1-mapping pipeline (`bart_pulseq_spiral_dream.py`);
  - the BART PICS Cartesian pipeline (`bart_pics_pulseq.py`);
  - the JEMRIS simulation pipeline (`bart_jemris.py`).

## How the model is built

Acquisitions and headers are values (datatypes in `mrd.dfy`). A function
that updates a record in place returns the updated record instead.

Each routing loop is modelled twice:

- A pure `Step` function handles one record. `RunTo` folds `Step` over a
  prefix of the stream, and `Outcome` describes a whole connection.
- A `Router` class has the loop's local variables as fields. Its methods
  (`Route`, `Image`, `Flush`, …) are proved to move the fields exactly as
  the pure functions say. `RouteAll` runs the `while` loop with the invariant
  `RunTo(i) == Success(View())`, and `Process` returns exactly `Outcome`.

The properties are lemmas about the pure functions: noise handling,
routing, segment splicing, calibration, map duplication, numbering, the
process_raw caches and reachability invariants.

A Python exception (an `IndexError`, a shape mismatch, a `TypeError` or
`AttributeError`) becomes a `Failure(RouteError)`. A failure ends the
connection, as the exception ends the source's loop.

External collaborators are parameters of a `Config` record:

- numerical collaborators (BART, FFTs, filters, FOV correction, GIRF
  interpolation) are function-typed fields;
- estimates are symbolic tokens that record their inputs: `Prewhitening(noise)`,
  `SensMap.Calibrated(acs, dmtx)` and `FromRaw(group)`.

Python and NumPy semantics are written out:

- negative indices wrap (`Mrd.PyIndex`);
- `int()` truncates toward zero (`Mrd.TruncToInt`);
- the k-space hit counter is `uint16` and wraps at 65536 (`KSpaceSort.CounterModulus`);
- the uint16 sample limit is 65535 (`PulseqProt.MaxSamples`).

Two behaviours of the code a reader may not expect:

- `bart_pics_pulseq.py` never empties its noise buffer after estimating
  the prewhitening matrix (lines 90-97).
- A readout that arrives out of sequence raises and ends the connection.
  It is not dropped while the group goes on.

## Model

| member | source | states |
|---|---|---|
| Mrd.TruncToInt | pulseq_prot.py:198 | `int()` of a real truncates toward zero: the result is within one of x, on x's side of zero |
| Mrd.PyIndex | bart_pics_pulseq.py:218 | a NumPy index i into n elements is valid iff -n <= i < n, and then denotes i or i + n |
| Mrd.Zeros | pulseq_prot.py:217 | `np.zeros(n)` holds n zeros |
| ReconCalls.Whitened | bart_pulseq_spiral_dream.py:524-527 | data without a prewhitening matrix is passed unchanged; a shape-preserving whitening keeps channel and sample counts |
| Routing.ProcessAcs | powergrid_pulseq.py:547-578 | process_acs returns None for an empty group; for a non-empty group it raises exactly when sort_into_kspace raises, and otherwise yields the calibration of the whole group with the current matrix |
| Routing.Prewhiten | bart_jemris.py:82-93 | an existing matrix is kept; with no matrix and buffered noise, the matrix is estimated from all buffered noise and the buffer is optionally cleared; with no noise nothing changes |
| Routing.WriteColumns | powergrid_pulseq.py:214 | `dst[:, a:b] = src` succeeds exactly when src broadcasts to the sliced shape, and keeps dst's shape |
| Routing.WrittenSample | powergrid_pulseq.py:214 | after `dst[:, a:b] = src`, column j of channel ch holds src's value inside [a, b) and dst's value elsewhere |
| Routing.Splice | powergrid_pulseq.py:211-214 | splicing a segment changes only the data of the open readout and keeps its shape |
| Routing.SpliceWritesSegment | bart_pulseq_spiral_dream.py:162-166 | a fitting segment s of n samples overwrites exactly columns [s*n, (s+1)*n) of every channel and leaves every other column as it was |
| Routing.SpliceRejectsChannelMismatch | bart_pulseq_spiral_dream.py:166 | a segment whose channel count neither matches nor broadcasts raises |
| Routing.WriteAll | bart_pulseq_spiral_dream.py:170 | `data[:] = x` changes only the data and keeps its shape |
| Routing.WriteAllReplaces | powergrid_pulseq.py:234 | `data[:] = x` with x of the readout's shape replaces the data by x |
| Routing.ReplaceLast | bart_pulseq_spiral_dream.py:170 | writing `lst[-1]` keeps the list's length and every earlier entry |
| PulseqProt.CopyLimit | pulseq_prot.py:69-88 | an optional encoding limit is copied when the protocol has it, kept when it does not, and raises when the dataset lacks it |
| PulseqProt.CopySliceLimit | pulseq_prot.py:65-67 | the slice limit is always copied and raises when either header lacks it |
| PulseqProt.InsertHdr | pulseq_prot.py:37-88 | insert_hdr fails exactly when a user parameter or a limit cannot be written; on success user doubles, trajectory, matrices, FOVs and limits come from the protocol and everything else stays |
| PulseqProt.FirstSet | pulseq_prot.py:166-185 | the first flag of the checked order that is set, or none if none is |
| PulseqProt.Relabel | pulseq_prot.py:150-185 | directions, counters and the completion and role flags come from the protocol; position, user counters, data and trajectory stay |
| PulseqProt.ExtendData | pulseq_prot.py:216-217 | the data is zero-filled to the full sample count, keeping every original sample |
| PulseqProt.FitThree | pulseq_prot.py:218 | assigning a row to three trajectory columns succeeds for one or three values |
| PulseqProt.FirstThree | pulseq_prot.py:209-210 | `traj[:, :3]` keeps at most the first three entries of each row |
| PulseqProt.ChooseTrajectory | pulseq_prot.py:207-214 | the protocol trajectory is used iff it has the full sample count and its first three columns exceed 1 somewhere (with k0 zero); otherwise calc_traj's base and k0 |
| PulseqProt.ExtendedTraj | pulseq_prot.py:214-219 | the extended trajectory has five columns: the reconstruction trajectory, a zero time column and k0 |
| PulseqProt.Extend | pulseq_prot.py:189-223 | the non-Cartesian segment-0 branch needs the segment count, keeps the full sample count within 65535, and on success returns the base trajectory and the five-column trajectory chosen by ChooseTrajectory |
| PulseqProt.InsertAcq | pulseq_prot.py:117-223 | relabelled as by the protocol; role records, Cartesian mode and later segments return no base trajectory and keep data and samples; a full sample count above 65535 raises; otherwise the data is zero-extended to the full count, the trajectory is replaced by ChooseTrajectory's rows with a zero time column and k0, and the chosen base is returned |
| PulseqProt.InsertedTrajectory | pulseq_prot.py:207-223 | after a successful segment-0 insertion every trajectory row has five columns and a zero time column; the protocol trajectory gives its first three columns as base and k0 = 0, otherwise calc_traj's base and k0 are used |
| PulseqProt.SwapAxes | pulseq_prot.py:238 | `np.swapaxes(traj, 0, 1)` is the transpose |
| PulseqProt.PadGradient | pulseq_prot.py:251-253 | 10 zeros are added on both sides of every gradient axis and the samples in between are kept |
| PulseqProt.PaddingKeepsSampleTimes | pulseq_prot.py:251-257 | after padding and the shifted time vector, original sample k still sits at time gradshift + 10 us * k |
| PulseqProt.WithZAxis | pulseq_prot.py:259-261 | a 2-D gradient gets a zero z axis; other gradients are unchanged |
| PulseqProt.NominalGradient | pulseq_prot.py:238-261 | the padded gradient has a zero z axis for 2-D trajectories and the padded sample count on every axis |
| PulseqProt.SetPartition | pulseq_prot.py:292-297 | for a 2-D trajectory the predicted z axis is the constant partition - nz//2; x and y are kept |
| PulseqProt.PadRows | pulseq_prot.py:326-328 | the gradient is zero-filled to the GIRF length, keeping its samples |
| PulseqProt.MapRows | pulseq_prot.py:336 | the transform is applied to every axis |
| PulseqProt.Combine | pulseq_prot.py:339-341 | output axis `dim` at frequency k is the sum over input axes of gradient times GIRF |
| PulseqProt.AlignedGirf | pulseq_prot.py:329-333 | the GIRF is used as it is unless the gradient is longer, and is then interpolated to the gradient length |
| PulseqProt.PredictedGradient | pulseq_prot.py:313-349 | the prediction has one row per GIRF output axis, cut to the gradient's length |
| PulseqProt.PredictedAxis | pulseq_prot.py:343-347 | one predicted axis is cut to the gradient's sample count |
| PulseqProt.GradPred | pulseq_prot.py:313-349 | the loop over output axes computes exactly the predicted gradient |
| PulseqProt.AxisSumAllPass | pulseq_prot.py:341 | with an identity GIRF, summing over input axes picks out the matching input axis |
| PulseqProt.AllPassReproducesGradient | pulseq_prot.py:313-349 | with an identity GIRF and an invertible FFT, predicted axis j+1 is input axis j: the prediction reproduces the nominal gradient |
| KSpaceSort.SliceBounds | powergrid_pulseq.py:758 | a Python slice's bounds are clamped into [0, n] and kept when already inside |
| KSpaceSort.EvenReadoutCentred | powergrid_pulseq.py:755-758 | an even readout no longer than nx lands in columns [nx/2 - ncol/2, nx/2 + ncol/2), exactly ncol wide |
| KSpaceSort.MaxStep1 | powergrid_pulseq.py:726-738 | enc1_max bounds every phase encode of the group and is attained (or 0) |
| KSpaceSort.MaxStep2 | powergrid_pulseq.py:726-738 | enc2_max bounds every partition encode of the group and is attained (or 0) |
| KSpaceSort.FirstError | powergrid_pulseq.py:750-775 | the sort raises iff some readout's target or shape is invalid |
| KSpaceSort.FirstErrorOfPrefix | powergrid_pulseq.py:750-775 | the first error of a prefix is the first error of the group |
| KSpaceSort.Averaged | powergrid_pulseq.py:778 | each cell is divided by max(1, counter) |
| KSpaceSort.KSpaceOf | powergrid_pulseq.py:722-783 | an empty group fails; the result has shape [nx][ny][nz][nc] |
| KSpaceSort.ToBartOrder | powergrid_pulseq.py:781 | `np.transpose(kspace, [3, 0, 1, 2])` maps [ny][nz][nc][nx] to [nx][ny][nz][nc] |
| KSpaceSort.EncodeMaxima | powergrid_pulseq.py:726-738 | the first loop computes both encode maxima |
| KSpaceSort.Accumulate | powergrid_pulseq.py:750-775 | the accumulation loop raises at the first invalid readout, else leaves every cell holding the sum and the uint16 count of the readouts landing in it |
| KSpaceSort.AverageCells | powergrid_pulseq.py:778-781 | averaging produces the averaged grid |
| KSpaceSort.SortIntoKspace | bart_pics_pulseq.py:168-229 | the imperative sort over 2-D arrays returns exactly KSpaceOf |
| KSpaceSort.RepeatIsProduct | powergrid_pulseq.py:772 | adding r n times gives n * r |
| KSpaceSort.ScaleAverage | powergrid_pulseq.py:778 | n copies of v divided by n is v |
| KSpaceSort.CellSumUniform | powergrid_pulseq.py:772 | if every readout landing in a cell contributes v, the cell holds hits copies of v |
| KSpaceSort.HitsCountsLanders | powergrid_pulseq.py:775 | a cell's hit count is zero iff no readout lands in it |
| KSpaceSort.UnvisitedCellIsZero | powergrid_pulseq.py:745 | a cell no readout lands in stays zero |
| KSpaceSort.UniformCellIsAveraged | powergrid_pulseq.py:772-778 | repeated averages of the same value average back to that value while the counter does not wrap |
| KSpaceSort.WrappedCounterSkipsAveraging | powergrid_pulseq.py:746 | after exactly 65536 hits the uint16 counter reads 0 and the cell keeps the undivided sum |
| KSpaceSort.KSpaceEntry | powergrid_pulseq.py:778-781 | entry [x][y][z][ch] of the result is column x of channel ch of the averaged cell (y, z) |
| KSpaceSort.UnwhitenedContribution | powergrid_pulseq.py:771-772 | without prewhitening a readout adds its own data in its centred column window |
| KSpaceSort.SpreadAt | powergrid_pulseq.py:758 | the contribution is the readout's sample inside the window and zero outside |
| SpiralSort.DimsFirst | bart_jemris.py:254 | swapping the axes gives [dims][samples] with the same entries |
| SpiralSort.TrjLayout | powergrid_pulseq.py:717 | the trajectory becomes [dims][ncol][nacq] with entry [d][c][k] from readout k |
| SpiralSort.SigLayout | powergrid_pulseq.py:718 | the signal becomes [1][ncol][nacq][nch] with entry [0][c][k][ch] from readout k |
| SpiralSort.Stack | powergrid_pulseq.py:713-714 | `np.asarray` of the lists fails iff the group is empty or the per-readout arrays differ in shape |
| SpiralSort.SwappedTrj | powergrid_pulseq.py:708-709 | the first three trajectory dimensions are taken, with x and y swapped |
| SpiralSort.PowerGridSortSpiralData | powergrid_pulseq.py:698-720 | the sorting loop returns exactly the sorted arrays |
| SpiralSort.PowerGridOutcome | powergrid_pulseq.py:698-720 | the sort succeeds iff the group is non-empty, every trajectory has three dimensions and all readouts share one shape |
| SpiralSort.PowerGridLayout | powergrid_pulseq.py:708-718 | sorted trajectory [0], [1], [2] at (c, k) are readout k's y, x and z at sample c; the signal at (c, k, ch) is readout k's sample |
| SpiralSort.DreamTrj | bart_pulseq_spiral_dream.py:530 | `traj[:, :3]` swapped gives at most three dimensions by samples |
| SpiralSort.WhitenedSigs | bart_pulseq_spiral_dream.py:524-527 | one signal per readout |
| SpiralSort.DreamSorted | bart_pulseq_spiral_dream.py:506-556 | an empty group fails |
| SpiralSort.DreamSortSpiralData | bart_pulseq_spiral_dream.py:506-556 | the sorting and filtering loops return exactly the sorted arrays |
| SpiralSort.Filtered | bart_pulseq_spiral_dream.py:546-547 | the readout filter is applied to every readout |
| SpiralSort.FilterEach | bart_pulseq_spiral_dream.py:546-547 | the filter loop succeeds iff every filtered readout keeps the array's shape, and then returns the filtered signals |
| SpiralSort.DreamLayout | bart_pulseq_spiral_dream.py:530-551 | sorted trajectory entry [d][c][k] is readout k's coordinate; the signal entry is the filtered, whitened sample of readout k |
| SpiralSort.JemrisTrj | bart_jemris.py:254-255 | the trajectory is transposed and scaled by fov/(2 pi) |
| SpiralSort.JemrisSortData | bart_jemris.py:239-270 | the sorting loop returns exactly the sorted arrays |
| SpiralSort.JemrisLayout | bart_jemris.py:245-264 | sorted trajectory entry [d][c][k] is readout k's coordinate times the scale; the signal entry is the whitened sample |
| SpiralSort.JemrisOutcome | bart_jemris.py:258-264 | without whitening the sort succeeds iff the group is non-empty and all readouts share one shape and dimension count |
| PicsRouter.Configure | bart_pics_pulseq.py:117 | imaging groups sort with the BART geometry (x, y, z) and no centre shift; calibration groups sort with the same geometry, zero-filled around the centre |
| PicsRouter.Init | bart_pics_pulseq.py:68-75 | 256 empty calibration buffers and map slots, no noise, matrix or images |
| PicsRouter.Labelled | bart_pics_pulseq.py:84 | Cartesian insertion keeps the data and takes the slice from the protocol |
| PicsRouter.CartesianInsertOnlyRelabels | bart_pics_pulseq.py:84 | insert_acq with noncartesian=False only relabels and returns no trajectory |
| PicsRouter.Crop | bart_pics_pulseq.py:294-296 | the cropped volume is rows int(n/4) to int(3n/4) of the original |
| PicsRouter.CropKeepsCentralHalf | bart_pics_pulseq.py:294-296 | the crop keeps n/2 rows (rounded), and the rows cut after it number those cut before it or one more |
| PicsRouter.ProcessRaw | bart_pics_pulseq.py:251-302 | process_raw fails iff the group is empty or the sort fails; the image is index 1, built from the first readout, scaled by the cached scale if there is one |
| PicsRouter.RunToNext | bart_pics_pulseq.py:78 | the loop advances one record at a time |
| PicsRouter.RunStopsAtFailure | bart_pics_pulseq.py:77-121 | once a record raises, every longer prefix ends in that exception |
| PicsRouter.NoiseAndPrewhitening | bart_pics_pulseq.py:87-97 | noise is buffered; the first other record after noise estimates the matrix; the buffer is never emptied; an existing matrix is kept |
| PicsRouter.DivertedRecords | bart_pics_pulseq.py:101-105 | phase-correction records are dropped and calibration records join their slice's buffer (an out-of-range slice raises); nothing else changes |
| PicsRouter.ImagingRecordAppended | bart_pics_pulseq.py:108 | an imaging record without a completion flag is appended to the group and nothing else changes |
| PicsRouter.ClosingRecordProcessesGroup | bart_pics_pulseq.py:112-120 | a completion flag sends one image of the whole group (index 1, first readout), empties the group and calibrates the slice's map only if missing; a missing map comes from the slice's whole calibration buffer (none for an empty buffer), whose sort must succeed |
| PicsRouter.ClosingCalibrationRaises | bart_pics_pulseq.py:114-116 | a closing record of a slice without a map and with a non-empty calibration buffer raises when that buffer's sort raises |
| PicsRouter.FlushProcessesRemainderOnce | bart_pics_pulseq.py:154-162 | after the loop an empty group sends nothing; a non-empty one is sent as one image and emptied |
| PicsRouter.StepKeepsScale | bart_pics_pulseq.py:286-289 | a step keeps an existing intensity scale and keeps the scale consistent with the images sent |
| PicsRouter.ScaleFixedByFirstImage | bart_pics_pulseq.py:286-290 | every image of a connection is scaled from the first image's data (or the scale already cached) |
| PicsRouter.PrewhiteningStaysFixed | bart_pics_pulseq.py:90 | once estimated, the matrix never changes for the rest of the connection |
| PicsRouter.Router.constructor | bart_pics_pulseq.py:68-75 | the fields start as the initial state |
| PicsRouter.Router.ProcessGroup | bart_pics_pulseq.py:112-120 | the fields move exactly as the closing branch says |
| PicsRouter.Router.Route | bart_pics_pulseq.py:82-120 | one iteration moves the fields exactly as Step, or reports Step's exception |
| PicsRouter.Router.Flush | bart_pics_pulseq.py:154-162 | the untriggered reconstruction moves the fields exactly as Flushed |
| PicsRouter.RouteAll | bart_pics_pulseq.py:77-121 | the loop over the stream ends in RunTo of the whole stream |
| PicsRouter.Process | bart_pics_pulseq.py:63-165 | a connection's result is exactly Outcome |
| PowerGridRouter.Configure | powergrid_pulseq.py:142 | records are inserted non-Cartesian against the protocol header, raw maps sort with sort_spiral_data, and calibration groups sort into k-space of the dataset's matrix (2x, x, z) zero-filled around the centre |
| PowerGridRouter.Init | powergrid_pulseq.py:129-131 | empty per-slice and per-slice-and-contrast buffers, no navigator, no jobs |
| PowerGridRouter.WithTime | powergrid_pulseq.py:200-203 | trajectory column 3 becomes t_min + dwell * i; every other entry and the data stay |
| PowerGridRouter.CalibrationStep | powergrid_pulseq.py:191-197 | a calibration record changes only calibration buffers and maps |
| PowerGridRouter.Placed | powergrid_pulseq.py:200-214 | placing a segment changes only its [slice][contrast] list and the segment-0 reference |
| PowerGridRouter.PhaseCorrected | powergrid_pulseq.py:237-239 | the global phase correction changes only the data, keeping its shape |
| PowerGridRouter.Finished | powergrid_pulseq.py:216-245 | completing the last segment changes only the readout's list and keeps its length |
| PowerGridRouter.FinishedAsWritten | powergrid_pulseq.py:216-221 | with a matrix, the branch as written is the corrected one |
| PowerGridRouter.Completed | powergrid_pulseq.py:247-250 | closing a slice changes only the maps |
| PowerGridRouter.Imaging | powergrid_pulseq.py:199-260 | the imaging branch never touches calibration buffers |
| PowerGridRouter.RunStopsAtFailure | powergrid_pulseq.py:132-260 | once a record raises, every longer prefix ends in that exception |
| PowerGridRouter.NoiseAndPrewhitening | powergrid_pulseq.py:147-158 | noise only joins the noise buffer; the first other record after noise estimates the matrix and empties the buffer; an existing matrix is kept |
| PowerGridRouter.NavigatorsAndDummiesDiverted | powergrid_pulseq.py:160-179 | navigators are appended to the navigator list (raising once it is converted), dummies change nothing; neither touches the buffers |
| PowerGridRouter.CalibrationAndImagingRouted | powergrid_pulseq.py:181-197 | a calibration record takes the calibration step with the current matrix, any other the imaging step; the navigator list is converted first |
| PowerGridRouter.CalibrationBuffered | powergrid_pulseq.py:191-197 | a calibration record joins its slice's buffer; the last one calibrates the slice from the whole buffer, whose sort must succeed, and empties it |
| PowerGridRouter.CalibrationRaisesWithSort | powergrid_pulseq.py:193-196 | the last calibration record of a slice raises exactly when sorting the slice's whole buffer raises |
| PowerGridRouter.SegmentZeroAppended | powergrid_pulseq.py:200-209 | a segment-0 record gets its sample times, is appended to its list and becomes the FOV-correction reference |
| PowerGridRouter.LaterSegmentSpliced | powergrid_pulseq.py:210-214 | a later segment overwrites exactly its columns of the list's last readout |
| PowerGridRouter.UnwhitenedLastSegmentProcessed | powergrid_pulseq.py:216-234 | corrected: without a matrix, the first contrast's completed readout is replaced by the filtered, FOV-corrected version of its own data |
| PowerGridRouter.LastSegmentProcessed | powergrid_pulseq.py:216-239 | for any matrix and contrast, completing the last segment succeeds iff the global phase correction does, and then exactly the list's last readout is replaced by its (whitened) data FOV-corrected, filtered and phase-corrected; contrast 0 is not phase-corrected, and a later contrast needs the converted navigators and the directions array |
| PowerGridRouter.UnwhitenedLastSegmentRaisesAsWritten | powergrid_pulseq.py:218-219 | as written, the branch without a matrix always raises |
| PowerGridRouter.RawMapOnlyIfMissing | powergrid_pulseq.py:247-250 | a closing record fills only a missing map, from the raw readouts; an existing map is kept |
| PowerGridRouter.MeasurementSubmitsOnce | powergrid_pulseq.py:256-260 | the last-in-measurement record submits one job holding the buffers as they stand; others submit nothing |
| PowerGridRouter.ListsShapedUpdate | powergrid_pulseq.py:204 | replacing one list by a well-shaped one keeps all lists well-shaped |
| PowerGridRouter.PlacedKeepsShape | powergrid_pulseq.py:200-214 | placing keeps the buffers well-formed |
| PowerGridRouter.FinishedKeepsShape | powergrid_pulseq.py:216-245 | completing the last segment keeps the buffers well-formed |
| PowerGridRouter.ImagingKeepsShape | powergrid_pulseq.py:199-260 | the imaging branch keeps the buffers well-formed |
| PowerGridRouter.StepKeepsShape | powergrid_pulseq.py:138-260 | every step keeps the buffers well-formed |
| PowerGridRouter.ReachableWellFormed | powergrid_pulseq.py:132-260 | every state the loop reaches has well-formed buffers |
| PowerGridRouter.PrewhiteningStaysFixed | powergrid_pulseq.py:150 | once estimated, the matrix never changes |
| PowerGridRouter.Router.constructor | powergrid_pulseq.py:129-131 | the fields start as the initial state |
| PowerGridRouter.Router.Admit | powergrid_pulseq.py:142-187 | the part before the slice check moves the context exactly as Admitted |
| PowerGridRouter.Router.Calibrate | powergrid_pulseq.py:191-197 | the fields move exactly as CalibrationStep |
| PowerGridRouter.Router.Place | powergrid_pulseq.py:200-214 | the fields move exactly as Placed |
| PowerGridRouter.Router.Finish | powergrid_pulseq.py:216-245 | the fields move exactly as Finished |
| PowerGridRouter.Router.Complete | powergrid_pulseq.py:247-250 | the fields move exactly as Completed |
| PowerGridRouter.Router.Image | powergrid_pulseq.py:199-260 | the fields move exactly as Imaging |
| PowerGridRouter.Router.Route | powergrid_pulseq.py:138-260 | one iteration moves the fields exactly as Step |
| PowerGridRouter.RouteAll | powergrid_pulseq.py:132-260 | the loop ends in RunTo of the whole stream |
| PowerGridRouter.EmptyStreamRaises | powergrid_pulseq.py:294 | a connection without records raises, because `item` is read after the loop; otherwise its result is the loop's |
| PowerGridRouter.Process | powergrid_pulseq.py:132-296 | a connection's result is exactly Outcome: an empty stream raises, and untriggered data is dropped |
| DreamRouter.Configure | bart_pulseq_spiral_dream.py:110 | records are inserted non-Cartesian, groups sorted with this file's sort_spiral_data, and calibration groups sorted into k-space of the dataset's matrix (2x, x, z) zero-filled around the centre |
| DreamRouter.EmptyCaches | bart_pulseq_spiral_dream.py:88-92 | each cache is one empty slot per contrast |
| DreamRouter.Init | bart_pulseq_spiral_dream.py:88-99 | empty buffers per slice and per [contrast][slice], empty caches |
| DreamRouter.Pictured | bart_pulseq_spiral_dream.py:259-279 | the FID contrast is kept unreconstructed iff the global filter is active; every other contrast is reconstructed |
| DreamRouter.Mapped | bart_pulseq_spiral_dream.py:281-341 | without the filter the sent data is unchanged; computing the maps needs a sixth user parameter and a flip angle in the 'dream' array |
| DreamRouter.PartitionImages | bart_pulseq_spiral_dream.py:407-440 | partition p is numbered first + p |
| DreamRouter.Numbered | bart_pulseq_spiral_dream.py:400-475 | one magnitude image per partition (or one), times three with maps; every image is built from the group's first readout, and only magnitude images are scaled |
| DreamRouter.ProcessRaw | bart_pulseq_spiral_dream.py:232-475 | success needs a non-empty group, a successful sort and the protocol arrays; every image comes from the first readout |
| DreamRouter.Recorded | bart_pulseq_spiral_dream.py:257-475 | every image comes from the first readout |
| DreamRouter.ImascaleSetOnce | bart_pulseq_spiral_dream.py:371-374 | a contrast's scale is set on its first call and never overwritten; other contrasts' scales stay; magnitude images use the cached scale |
| DreamRouter.FullAfterRecording | bart_pulseq_spiral_dream.py:279-280 | recording a contrast completes the image cache iff every other contrast is present |
| DreamRouter.MapsOnlyWhenFull | bart_pulseq_spiral_dream.py:280-363 | maps are sent iff, with this contrast recorded, every contrast has its images |
| DreamRouter.CachesResetWhenFull | bart_pulseq_spiral_dream.py:257-354 | when every contrast is present both caches are reset; otherwise only this contrast's raw data and images are recorded |
| DreamRouter.NumberedMaps | bart_pulseq_spiral_dream.py:418-473 | the images carry maps iff the call computed them |
| DreamRouter.ProcessRawKeepsCaches | bart_pulseq_spiral_dream.py:257-354 | the raw-data and image caches stay filled together, so the map branch never reads an empty raw-data slot |
| DreamRouter.ImageIndexInjective | bart_pulseq_spiral_dream.py:409 | 1 + c*n + p with p < n determines c and p |
| DreamRouter.BlocksOrdered | bart_pulseq_spiral_dream.py:409 | every number of an earlier contrast block is below every number of a later block |
| DreamRouter.PartitionNumbersDistinct | bart_pulseq_spiral_dream.py:406-440 | with several partitions no two images of a call share a series and an index |
| DreamRouter.SinglePartitionNumbersClash | bart_pulseq_spiral_dream.py:442-473 | with one partition, two images share series and index iff maps are sent and the repetition is 1 or 2 |
| DreamRouter.NumberImages | bart_pulseq_spiral_dream.py:400-475 | the numbering loops produce exactly the numbered images |
| DreamRouter.Admitted | bart_pulseq_spiral_dream.py:110-136 | every record becomes the current item; only non-noise, non-phase-correction, non-dummy records go on |
| DreamRouter.CalibrationStep | bart_pulseq_spiral_dream.py:137-143 | a calibration record changes no imaging buffer |
| DreamRouter.Present | bart_pulseq_spiral_dream.py:146 | the count of slices with a map is at most the slice count |
| DreamRouter.PresentCounts | bart_pulseq_spiral_dream.py:146-147 | the count is full iff every slice has a map, and zero iff none has |
| DreamRouter.Source | bart_pulseq_spiral_dream.py:148-153 | a receiving slice takes its map from a different, existing slice |
| DreamRouter.Duplicated | bart_pulseq_spiral_dream.py:146-153 | duplication raises iff some but not all slices have a map and a partner has none |
| DreamRouter.Copied | bart_pulseq_spiral_dream.py:148-153 | each receiving slice holds its partner's map; the others are kept |
| DreamRouter.ReceiverOrPartner | bart_pulseq_spiral_dream.py:148-153 | every slice that receives nothing is some receiver's partner, except the last of an odd count |
| DreamRouter.DuplicationFills | bart_pulseq_spiral_dream.py:146-153 | after a duplication every slice has a map, except possibly the last of an odd count, which is never copied into |
| DreamRouter.CopiedFills | bart_pulseq_spiral_dream.py:148-153 | copying with every partner present fills all slices but the last of an odd count |
| DreamRouter.LastOfOddCountKept | bart_pulseq_spiral_dream.py:152 | with an odd slice count the last slice is never copied into |
| DreamRouter.CopiedFilled | bart_pulseq_spiral_dream.py:148-153 | one slice has a map after copying when every partner has one |
| DreamRouter.DuplicationIdempotent | bart_pulseq_spiral_dream.py:146-153 | duplicating twice gives the same maps as once |
| DreamRouter.SourceNotReceiver | bart_pulseq_spiral_dream.py:148-153 | a partner never receives a map itself |
| DreamRouter.Placed | bart_pulseq_spiral_dream.py:155-166 | placing a segment changes only its [contrast][slice] list and the segment-0 reference |
| DreamRouter.Reapplied | bart_pulseq_spiral_dream.py:167-170 | the FOV correction changes only the readout's list and keeps its length |
| DreamRouter.Closed | bart_pulseq_spiral_dream.py:174-179 | closing a group changes only the imaging buffers |
| DreamRouter.RunStopsAtFailure | bart_pulseq_spiral_dream.py:100-179 | once a record raises, every longer prefix ends in that exception |
| DreamRouter.FlushWith | bart_pulseq_spiral_dream.py:213-222 | the untriggered reconstruction leaves the context unchanged |
| DreamRouter.NoiseAndPrewhitening | bart_pulseq_spiral_dream.py:114-126 | noise only joins the noise buffer; the first other record after noise estimates the matrix and empties the buffer; an existing matrix is kept |
| DreamRouter.SkippedRecords | bart_pulseq_spiral_dream.py:133-136 | phase-correction and dummy records change no buffer, cache or image |
| DreamRouter.CalibrationAndImagingRouted | bart_pulseq_spiral_dream.py:137-179 | a calibration record takes the calibration step with the current matrix and sends nothing; any other takes the imaging step |
| DreamRouter.CalibrationBuffered | bart_pulseq_spiral_dream.py:137-143 | a calibration record joins its slice's buffer; the last one calibrates from the whole buffer, whose sort must succeed, records the slice in old_grid and empties the buffer |
| DreamRouter.CalibrationRaisesWithSort | bart_pulseq_spiral_dream.py:139-142 | the last calibration record of a slice raises exactly when sorting the slice's whole buffer raises |
| DreamRouter.ImagingDuplicatesFirst | bart_pulseq_spiral_dream.py:146-153 | an imaging record duplicates the maps first (raising when a partner lacks one) and changes no map afterwards |
| DreamRouter.SegmentZeroAppended | bart_pulseq_spiral_dream.py:155-161 | a segment-0 record is appended and becomes the FOV-correction reference |
| DreamRouter.LaterSegmentSpliced | bart_pulseq_spiral_dream.py:162-166 | a later segment overwrites exactly its columns of the list's last readout |
| DreamRouter.LastSegmentReapplied | bart_pulseq_spiral_dream.py:167-170 | the last segment raises without a segment-0 reference; otherwise the readout's data is replaced by its FOV-corrected version |
| DreamRouter.ClosingProcessesGroupOnce | bart_pulseq_spiral_dream.py:174-179 | a completion flag sends process_raw's images of the whole group with the slice's map and empties exactly that group |
| DreamRouter.StepKeepsCaches | bart_pulseq_spiral_dream.py:100-179 | every step keeps the caches filled together |
| DreamRouter.FlushKeepsCaches | bart_pulseq_spiral_dream.py:213-222 | the untriggered reconstruction keeps the caches filled together |
| DreamRouter.ReachableCachesInStep | bart_pulseq_spiral_dream.py:100-179 | every reachable state has its caches filled together |
| DreamRouter.NoEmptyCacheSlot | bart_pulseq_spiral_dream.py:296-297 | no connection reads an empty raw-data slot when computing the maps |
| DreamRouter.StepKeepsScale | bart_pulseq_spiral_dream.py:371-373 | a step never changes an intensity scale that is already cached |
| DreamRouter.ScaleFixedOnceSet | bart_pulseq_spiral_dream.py:371-373 | once a contrast has a scale, it keeps it for the rest of the connection |
| DreamRouter.PrewhiteningStaysFixed | bart_pulseq_spiral_dream.py:118 | once estimated, the matrix never changes |
| DreamRouter.FlushRaisesAsWritten | bart_pulseq_spiral_dream.py:219 | as written, a non-empty leftover group always raises |
| DreamRouter.FlushProcessesRemainder | bart_pulseq_spiral_dream.py:213-222 | corrected: a non-empty leftover group is reconstructed with the slice's map (calibrated now from the whole buffer if missing, none for an empty buffer, the buffer's sort having to succeed) and its images are sent |
| DreamRouter.Router.constructor | bart_pulseq_spiral_dream.py:88-99 | the fields start as the initial state |
| DreamRouter.Router.Admit | bart_pulseq_spiral_dream.py:110-136 | the fields move exactly as Admitted |
| DreamRouter.Router.Calibrate | bart_pulseq_spiral_dream.py:137-143 | the fields move exactly as CalibrationStep |
| DreamRouter.Router.CountMaps | bart_pulseq_spiral_dream.py:146 | the list comprehension counts exactly the slices with a map |
| DreamRouter.Router.Duplicate | bart_pulseq_spiral_dream.py:146-153 | the fields move exactly as Duplicated |
| DreamRouter.Router.CopyFromNext | bart_pulseq_spiral_dream.py:148-150 | the even-count loop copies each even slice's map from the next slice |
| DreamRouter.Router.CopyFromPrevious | bart_pulseq_spiral_dream.py:151-153 | the odd-count loop copies each odd slice's map from the previous slice |
| DreamRouter.Router.Place | bart_pulseq_spiral_dream.py:155-166 | the fields move exactly as Placed |
| DreamRouter.Router.Reapply | bart_pulseq_spiral_dream.py:167-170 | the fields move exactly as Reapplied |
| DreamRouter.Router.Reconstruct | bart_pulseq_spiral_dream.py:232-475 | the caches move, and the images are returned, exactly as ProcessRaw |
| DreamRouter.Router.Record | bart_pulseq_spiral_dream.py:257-475 | the caches move, and the images are returned, exactly as Recorded |
| DreamRouter.Router.Close | bart_pulseq_spiral_dream.py:174-179 | the fields move exactly as Closed |
| DreamRouter.Router.Image | bart_pulseq_spiral_dream.py:145-179 | the fields move exactly as Imaging |
| DreamRouter.Router.Route | bart_pulseq_spiral_dream.py:106-179 | one iteration moves the fields exactly as Step |
| DreamRouter.Router.Flush | bart_pulseq_spiral_dream.py:213-222 | the untriggered reconstruction moves the fields exactly as Flushed |
| DreamRouter.RouteAll | bart_pulseq_spiral_dream.py:100-179 | the loop ends in RunTo of the whole stream |
| DreamRouter.Process | bart_pulseq_spiral_dream.py:84-225 | a connection's result is exactly Outcome |
| JemrisRouter.Configure | bart_jemris.py:136 | groups sort with sort_data, scaling trajectories by fov/(2 pi) |
| JemrisRouter.Init | bart_jemris.py:61-71 | empty per-slice buffers and map slots, no coil maps, no noise |
| JemrisRouter.FlattenRowMajor | bart_jemris.py:97 | `data[:]` read row-major: sample j of channel ch is element ch*n + j |
| JemrisRouter.FlattenLength | bart_jemris.py:97 | flattening keeps every sample |
| JemrisRouter.Reshaped | bart_jemris.py:97 | reshaping by the truncated first trajectory sample succeeds only when the shape holds exactly the record's elements, and keeps them in order |
| JemrisRouter.CoilMapKeepsSamples | bart_jemris.py:97 | a reshaped coil record holds sample j of channel ch at ch*samples + j |
| JemrisRouter.Numbered | bart_jemris.py:186-206 | one image per partition, each built from the group's first readout |
| JemrisRouter.NumbersDistinct | bart_jemris.py:192-206 | no two images of a call share a series and an index; single-partition images of different slices of a repetition differ in index |
| JemrisRouter.NumberImages | bart_jemris.py:192-206 | the numbering loop produces exactly the numbered images |
| JemrisRouter.ProcessRaw | bart_jemris.py:130-208 | success needs a non-empty group and a successful sort, and sends at least one image, each from the first readout |
| JemrisRouter.Admitted | bart_jemris.py:82-93 | only non-noise records go on |
| JemrisRouter.CoilCollected | bart_jemris.py:96-98 | a surface-coil record changes only the coil maps |
| JemrisRouter.CalibrationStep | bart_jemris.py:103-105 | a calibration record changes only calibration buffers |
| JemrisRouter.MapReady | bart_jemris.py:106-109 | readying a map changes only maps and calibration buffers |
| JemrisRouter.Imaging | bart_jemris.py:106-120 | the imaging branch keeps the coil maps and the slice count |
| JemrisRouter.RunStopsAtFailure | bart_jemris.py:73-120 | once a record raises, every longer prefix ends in that exception |
| JemrisRouter.NoiseAndPrewhitening | bart_jemris.py:82-93 | noise only joins the noise buffer; the first other record after noise estimates the matrix and empties the buffer; an existing matrix is kept |
| JemrisRouter.CoilAndSkippedRecords | bart_jemris.py:96-102 | a surface-coil record succeeds iff it reshapes, and only adds its array to the coil maps; dummy and phase-correction records change nothing |
| JemrisRouter.CalibrationOnlyBuffered | bart_jemris.py:103-105 | a calibration record succeeds iff its slice is in range, and only joins its slice's buffer |
| JemrisRouter.LazyCalibration | bart_jemris.py:106-109 | a slice with a map keeps everything; a slice without one gets no map from an empty buffer and otherwise the calibration of its whole buffer, whose sort must succeed; the buffer is emptied |
| JemrisRouter.GroupProcessedOnClose | bart_jemris.py:111-120 | an imaging record is appended to its slice's group; a completion flag sends process_raw's images of the whole group with the readied map and empties exactly that group |
| JemrisRouter.StepKeepsMaps | bart_jemris.py:106 | a step never replaces a map a slice already has |
| JemrisRouter.MapFixedOnceSet | bart_jemris.py:106-108 | once a slice has a map, it keeps it for the rest of the connection |
| JemrisRouter.PrewhiteningStaysFixed | bart_jemris.py:85 | once estimated, the matrix never changes |
| JemrisRouter.Router.constructor | bart_jemris.py:61-71 | the fields start as the initial state |
| JemrisRouter.Router.ReadyMap | bart_jemris.py:106-109 | the fields move exactly as MapReady |
| JemrisRouter.Router.Reconstruct | bart_jemris.py:130-208 | the images returned are exactly ProcessRaw's |
| JemrisRouter.Router.Image | bart_jemris.py:106-120 | the fields move exactly as Imaging |
| JemrisRouter.Router.Route | bart_jemris.py:79-120 | one iteration moves the fields exactly as Step |
| JemrisRouter.RouteAll | bart_jemris.py:73-120 | the loop ends in RunTo of the whole stream |
| JemrisRouter.Process | bart_jemris.py:29-123 | a connection's result is exactly Outcome; data left at the end is dropped |

## Left out

- Reading and writing: connection I/O, protocol file lookup, header
  parsing and `get_ismrmrd_arrays` are left out. Protocol headers, records
  and arrays are parameters.
- Numerical collaborators are function-typed parameters and are not
  modelled. These are BART (`nufft`, `pics`, `ecalib`), the FFTs,
  `apply_prewhitening`, `calculate_prewhitening`, `fov_shift`,
  `fov_shift_spiral_reapply`, `filt_ksp`, `intp_axis`, coordinate
  rotations, `calc_fa`, the DREAM global filter, sum-of-squares coil
  combination, int16 rounding, `remove_os` and the Otsu mask.
- Floating-point arithmetic is modelled as exact real arithmetic.
- Image and waveform messages are left out: passthrough of images, ECG
  extraction and `send_close`.
- Logging, the debug `np.save` calls and the GPU choice are left out.
- The single-slice selection `slc_sel` is always None in these entry
  points.
- Aliasing is not captured: records are values, so the model does not
  capture an update seen through another reference to the same
  acquisition object. This includes `bart_jemris.py:255` scaling `acq.traj`
  in place; nothing reads it afterwards.
- PowerGrid's `process_raw`, `process_shots` and the phase-map and shot
  images are left out (`shotimgs` is None). A measurement's result is
  modelled as a submitted job holding the buffers and maps.
- The short-navigator branch (`long_nav` is always true) and the `offres`
  correction (never set) of `powergrid_pulseq.py` are left out.
- Only the shape of `calc_traj` is modelled: its GIRF prediction,
  integration and interpolation are a parameter. The padding, the time
  shift, the z axis and the partition row are modelled.
- `grad_pred`'s `fftshift`/`ifftshift` pairs are folded into the transform
  parameters.
- `np.int` (an alias removed from current NumPy) is taken as `int`. NumPy's
  `-1` shape inference in `reshape` is not modelled, because the source
  passes a trajectory sample as the shape.
- SpiralSort.DreamSorted: states only the empty-group failure. The layout
  is stated by SpiralSort.DreamLayout and the failure cases by
  SpiralSort.Stack.
- DreamRouter.Mapped: the flip-angle and reference-voltage images are
  tokens. Their pixel values are not modelled, only when they are sent
  and how they are numbered.
- PicsRouter.ProcessRaw: the FFT or PICS reconstruction and the FOV shift
  are a parameter. The contract states failure, numbering and the scale,
  not pixel values.
- The intensity scale `0.8 / data.max()` is modelled as "taken from this
  call's data"; the arithmetic is not modelled.
- PowerGridRouter.Finished: runs the corrected line 219 of the first
  Findings row, so without a matrix it does not raise as the code does. The
  code as written is FinishedAsWritten, and
  UnwhitenedLastSegmentRaisesAsWritten shows the difference.
- PowerGridRouter.Imaging: inherits the corrected line 219 from Finished.
- PowerGridRouter.Process: the connection model runs the corrected line 219.
  Without noise data before an imaging readout's last segment, the code ends
  the connection with an AttributeError; the model goes on.
- DreamRouter.Process: the connection model passes `prot_arrays` to the
  untriggered reconstruction, as the second Findings row corrects. A
  non-empty leftover group is reconstructed instead of raising; the code as
  written is FlushRaisesAsWritten.
- PulseqProt.ChooseTrajectory: in the protocol branch the code never writes
  `traj[:, 4]`, which keeps whatever `resize` left there. The model takes
  it as zeros.
- SpiralSort.FilterEach: the filtered readout must have exactly the array's
  shape. NumPy would also accept a shape that broadcasts to it; that case
  is not modelled, because the filter is a parameter whose output shape is
  not known.

## Findings

| source | as written | input that shows it | evidently intended | confidence | as-written member | corrected member |
|---|---|---|---|---|---|---|
| powergrid_pulseq.py:219 | without a prewhitening matrix the last segment reads `acqGroup[slice][-1].data`, but `acqGroup[slice][-1]` is the list of the last contrast, so `.data` raises AttributeError | any stream with no noise readout before the last ADC segment of an imaging readout | `acqGroup[slice][contrast][-1].data`, as the whitened branch on line 221 reads | not executed | PowerGridRouter.UnwhitenedLastSegmentRaisesAsWritten | PowerGridRouter.UnwhitenedLastSegmentProcessed |
| bart_pulseq_spiral_dream.py:219 | the untriggered reconstruction calls process_raw without `prot_arrays`, so `prot_arrays['dream']` at line 255 indexes None and raises TypeError (or the sort fails first) | a stream that ends with a non-empty imaging group and no completion flag | pass `prot_arrays` as the triggered call on line 176 does | not executed | DreamRouter.FlushRaisesAsWritten | DreamRouter.FlushProcessesRemainder |
