# pycroscopy3D core, modelled in Dafny

This project models the deterministic core of pycroscopy3D and of the
IOCBIO Deconvolve library it ships with. The core is the index, shape,
bookkeeping and selection logic under the numpy, scipy and FFTW calls.
It proves what that logic guarantees. There are four groups.

- **Averaged PSF from bead images.**
  - `BeadPsf` covers `_pycroscopy/psf/psf.py`: relative thresholding, the bounding-box size filter, the common odd crop footprint, centroid crops with border rejection, and their mean.
  - `ExtractPsf` covers `extract_psf` in `deconvolve/python/calc/psf.py`: odd field sizes, the bounded background loop, the FWHM, distance and grid-distance gates, the supersampled grid, the flattened roll, normalise-and-accumulate, and the label bookkeeping.
  - `ReadXml` covers the older `spots2psf` in `deconvolve/read_xml.py`: `odd_max`, `fix_indices`, `expand_indices`, `highertype`, window clamping, block-average binning and the candidate loop.
- **The deconvolution library's deterministic shell (C++).**
  - `Images.Image` is the `Image` class, an `array<real>` in FFTW's padded real-to-complex layout. It covers `set`, `get_image`, `operator()`, `swap`, the in-place voxel operations, `get_stats`, `nrm2` and `minmod`.
  - `PsfOtf.Psf` is `PSF`: `set`, the centred index map, bounded tri-linear resampling, the wrap-around shift, normalisation, and the OTF cache keyed on settings id, dimensions and voxel sizes.
  - `FftwSettings` covers `ImageSettings`: version ids bumped by new FFTW handlers, planner selection and the `fftw_init` flag.
  - `DeconvolvePriv.DeconvolvePrivate` and `DeconvolveApi.Deconvolve` cover the engine and the public API. They include the setters, the convolve and deconvolve preconditions, the lambda handling in the Richardson-Lucy loop, the default stopping callback with its 3-deep lambda stack, and the meter-to-nanometer conversion.
- **Numeric helpers of the Python tests.**
  - `FiniteDiff` covers `dx`/`dy`/`dz`, `m` and `dv`.
  - `ExpandShape` covers `expand_to_shape`.
  - `LambdaCallback` covers the stopping callback of `test_deconvolve.py`.
- **Names, ranges and parsers.**
  - `FileNames` covers time parsing and ordering of stack files, plane names and output-folder names.
  - `PlaneRanges` covers plane and frame selection, the field of view and the batched stack average.
  - `SliceSpec` covers the `--slice` parser of `convert_data.py`.
  - `Noise` covers `photon_count`, `hist` and the integer gain choice.

Shared Python semantics live in three modules:

- `PyNum`: truncating `int()`, numpy's half-to-even `round`, and sums.
- `PySlice` and `NdArray`: slicing with negative and omitted bounds, indexing, and 3-D arrays as nested sequences.
- `PyStr`: `split`, `int()`/`str()`, `zfill`, `strip`, `basename` and `splitext`.

`Wrappers` holds `Option` and `Result`. Every Python exception the core can
raise is a `Failure` value naming the exception.

What was state changed in place in the source is state changed in place
here. This covers the C++ classes, the in-place numpy assignments
(`Noise.ClampNegatives`) and the module-level lambda list of the test
callback. Each such method is proved against a function of its inputs and
its old state. Loops are `while` or `for` loops with the invariants their
proofs need.

## Model

| member | source | states |
|---|---|---|
| BeadPsf.Thresholded | _pycroscopy/psf/psf.py:171-177 | the thresholded volume has as many voxels as the input |
| BeadPsf.ZeroBelow | _pycroscopy/psf/psf.py:174 | in place, every voxel below the cut becomes 0 and the others are unchanged |
| BeadPsf.OneAbove | _pycroscopy/psf/psf.py:176 | in place, every positive voxel becomes 1 and the others are unchanged |
| BeadPsf.Threshold | _pycroscopy/psf/psf.py:171-177 | a fresh copy thresholded at max·min_rel_val (binarised on request); an empty volume has no maximum and gives no result |
| BeadPsf.ThresholdBinaryIndicator | _pycroscopy/psf/psf.py:173-176 | in binary mode a non-negative volume becomes exactly the 0/1 indicator of the voxels that are positive and at least the cut |
| BeadPsf.ThresholdKeepsOrZeroes | _pycroscopy/psf/psf.py:174 | without binarising, each voxel is zeroed below the cut and kept otherwise, and thresholding twice changes nothing |
| BeadPsf.FilterBBoxes | _pycroscopy/psf/psf.py:201-216 | without an expected size every box passes and no label is returned; otherwise exactly the boxes whose relative deviation is below the tolerance on all axes pass, in order, with their 1-based labels |
| BeadPsf.ZeroToleranceRejectsBox | _pycroscopy/psf/psf.py:209-210 | with a positive expected size, a tolerance of 0 or less rejects every box, even one of exactly the expected size |
| BeadPsf.ZeroToleranceRejectsAll | _pycroscopy/psf/psf.py:36-37 | a tolerance of 0 makes the filter return no box at all, not only the identically sized ones the docstring promises |
| BeadPsf.ExactSizeAccepted | _pycroscopy/psf/psf.py:207-212 | a box of exactly the expected size is accepted, with its label, for any positive tolerance |
| BeadPsf.Extents | _pycroscopy/psf/psf.py:223 | one extent per box along the chosen axis |
| BeadPsf.ExtentsPrefix | _pycroscopy/psf/psf.py:222-224 | the running sum of extents grows by the next box's extent |
| BeadPsf.CalcAvBBoxSize | _pycroscopy/psf/psf.py:219-225 | the per-axis mean extent rounded half to even; no boxes gives no result (a division by zero in the source) |
| BeadPsf.AvBBoxSizeBetween | _pycroscopy/psf/psf.py:219-225 | the automatic expected size lies between the smallest and the largest extent on each axis |
| BeadPsf.LargestExtentIsMax | _pycroscopy/psf/psf.py:229-232 | the running maximum is non-negative, bounds every extent, and is 0 or attained by a box |
| BeadPsf.LargestExtentStep | _pycroscopy/psf/psf.py:231-232 | one loop step takes the maximum of the running value and the next extent |
| BeadPsf.OddUp | _pycroscopy/psf/psf.py:236 | the result is odd and at most one above the input |
| BeadPsf.Footprint | _pycroscopy/psf/psf.py:234-236 | the scaled, rounded and bumped extent is odd |
| BeadPsf.GetLargestBBox | _pycroscopy/psf/psf.py:228-237 | each axis is the footprint of the largest extent among the boxes |
| BeadPsf.LargestFootprint | _pycroscopy/psf/psf.py:228-237 | the footprint `get_largest_bbox` returns is odd on every axis |
| BeadPsf.LargestBBoxCovers | _pycroscopy/psf/psf.py:228-237 | with scale 1.5 the footprint is odd, at least 1.5 times the largest extent, covers every box, and is 1 without boxes |
| BeadPsf.OddRoundAboveThreeHalves | _pycroscopy/psf/psf.py:234-236 | rounding 1.5·m half to even and bumping to odd never goes below 1.5·m |
| BeadPsf.CropPsf | _pycroscopy/psf/psf.py:154-163 | the crop has the shape that Python slicing of the bounds gives |
| BeadPsf.CropAxisFull | _pycroscopy/psf/psf.py:158-163 | along an axis, a centroid whose window fits gives 2·(size//2)+1 entries starting at int(c − size//2) |
| BeadPsf.CropPsfFits | _pycroscopy/psf/psf.py:154-163 | a centroid whose odd window fits inside the volume gives a crop of exactly the footprint shape |
| BeadPsf.KeptCrops | _pycroscopy/psf/psf.py:240-250 | no more crops than centroids, each of the footprint shape |
| BeadPsf.AllInteriorKept | _pycroscopy/psf/psf.py:246-249 | when every centroid is far enough from the border, no crop is dropped |
| BeadPsf.KeptCropsStep | _pycroscopy/psf/psf.py:243-249 | one loop step appends the next crop exactly when it has the footprint shape |
| BeadPsf.CropPsfs | _pycroscopy/psf/psf.py:240-250 | the loop returns the kept crops in centroid order |
| BeadPsf.Column | _pycroscopy/psf/psf.py:98 | one value per crop at a voxel |
| BeadPsf.MeanVolume | _pycroscopy/psf/psf.py:98 | the voxel-wise mean has the crops' shape |
| BeadPsf.MeanVolumeBetween | _pycroscopy/psf/psf.py:98 | each voxel of the mean lies between the smallest and the largest value the crops have there |
| BeadPsf.FilterSize | _pycroscopy/psf/psf.py:75-78 | the size handed to `filter_bboxes`: none for None, the given extents, or for 'auto' the rounded mean extent of the boxes found |
| BeadPsf.PsfGenerator.constructor | _pycroscopy/psf/psf.py:22-84 | blur (skipped without a std), threshold (binary iff value_tolerance is 0), label with the absolute tolerance, count the objects; the labels are a filter result of the found boxes against the expected, automatic or no size, and the footprint is `get_largest_bbox` of exactly the boxes that filter kept (all of them without a size) |
| BeadPsf.PsfGenerator.CalcMeanPsf | _pycroscopy/psf/psf.py:89-98 | the centroids of the accepted labels, the kept crops and their mean |
| BeadPsf.PsfGenerator.MeanPsf | _pycroscopy/psf/psf.py:100-104 | served from the cache with nothing changed; on first access the centroids of the accepted labels, their kept crops and the voxel-wise mean of those crops (none for no crops), which is the value returned |
| BeadPsf.KeptBoxesFitFootprint | _pycroscopy/psf/psf.py:78-84 | every box the filter keeps fits inside the footprint derived from the kept boxes; without a size that is every box found |
| BeadPsf.ReprWithoutFilter | _pycroscopy/psf/psf.py:86-87 | without an expected size, the repr reports every found object as rejected |
| DeconvolvePriv.Pushed | deconvolve/cpp/src/deconvolve_priv.cpp:220-222 | pushing a lambda grows the stack by one until it holds three values, then keeps its length |
| DeconvolvePriv.PushedKeepsNewest | deconvolve/cpp/src/deconvolve_priv.cpp:220-222 | the pushed stack ends with the new lambda and is the newest suffix of the old stack plus lambda |
| DeconvolvePriv.OnlyCapStopsEarly | deconvolve/cpp/src/deconvolve_priv.cpp:206-224 | without regularisation or with fewer than three stored lambdas, the default callback continues exactly while iter < max_iterations |
| DeconvolvePriv.DefaultContinues | deconvolve/cpp/src/deconvolve_priv.cpp:206-224 | `callback_default` goes on unless lambda is below every stored value of a full regularised stack or the cap is reached |
| DeconvolvePriv.DeclineIsStrict | deconvolve/cpp/src/deconvolve_priv.cpp:208-213 | a full stack with one entry equal to or below lambda does not stop; raising that entry above lambda stops exactly when every other entry is above lambda too |
| DeconvolvePriv.Voxelwise | deconvolve/cpp/src/image.cpp:282-325 | a voxel operation on two images gives an image of the same size |
| DeconvolvePriv.VoxelwiseIsCombined | deconvolve/cpp/src/image.cpp:282-325 | invdivide_image and prod_image on the padded complex layout act value by value on the real image |
| DeconvolvePriv.Correction | deconvolve/cpp/src/deconvolve_priv.cpp:155-157 | the correction image has the measured image's size |
| DeconvolvePriv.Iteration | deconvolve/cpp/src/deconvolve_priv.cpp:155-191 | a successful iteration keeps the sizes and shifts the estimates (o0 becomes the new estimate, om1 the old o0); without regularisation it always succeeds and leaves lambda and its factor alone |
| DeconvolvePriv.FirstLambdaMustBeNonNegative | deconvolve/cpp/src/deconvolve_priv.cpp:166-171 | the first regularised iteration fails exactly when the least-squares lambda is negative |
| DeconvolvePriv.EffectiveSnr | deconvolve/cpp/src/deconvolve_priv.cpp:134-137 | the stored SNR when not negative, otherwise the estimate from the measured image |
| DeconvolvePriv.LeastSquaresLambda | deconvolve/cpp/src/deconvolve_priv.cpp:163-166 | lambda is the least-squares estimate of the correction against the unit-gradient divergence of the previous estimate |
| DeconvolvePriv.LaterLambdaClamped | deconvolve/cpp/src/deconvolve_priv.cpp:173-179 | later iterations always succeed, keep the factor, clamp a negative lambda to 0 before scaling, and give a non-negative lambda unless the factor is negative |
| DeconvolvePriv.FirstScaledLambda | deconvolve/cpp/src/deconvolve_priv.cpp:173-179 | the first iteration chooses the factor so that the scaled lambda is 50/snr |
| DeconvolvePriv.UserAnswer | deconvolve/cpp/src/deconvolve_priv.cpp:146-152 | the user's callback decides exactly when one is set |
| DeconvolvePriv.ArgsMeaning | deconvolve/cpp/include/deconvolve.hpp:45-58 | at iteration 0 min, max, sum and nrm2_prev are 0; from iteration 1 the stats are the estimate's min, max and sum and nrm2_prev is non-negative and 0 iff the estimate did not change; nrm2_prevprev stays 0 until iteration 3, not 2 as documented |
| DeconvolvePriv.Args | deconvolve/cpp/src/deconvolve_priv.cpp:145-189 | the callback arguments: zero statistics and norms at iteration 0, then the estimate's statistics, its `nrm2` to the previous estimate and, from iteration 3, to the one before |
| DeconvolvePriv.Start | deconvolve/cpp/src/deconvolve_priv.cpp:125-145 | the loop starts at iteration 0 with state of the measured image's size |
| DeconvolvePriv.RunStep | deconvolve/cpp/src/deconvolve_priv.cpp:146-192 | when the callback continues and the iteration succeeds, the loop goes on from iteration iter+1 with the new state and the updated lambda stack |
| DeconvolvePriv.Run | deconvolve/cpp/src/deconvolve_priv.cpp:143-192 | the iteration loop: ask the callback, stop when it says so or an iteration fails, otherwise iterate from the next variables |
| DeconvolvePriv.DefaultStopsAtCap | deconvolve/cpp/src/deconvolve_priv.cpp:224 | with the default callback the loop never passes max_iterations |
| DeconvolvePriv.UnregularizedRunsToCap | deconvolve/cpp/src/deconvolve_priv.cpp:159-160 | without regularisation and with the default callback the loop runs exactly max_iterations iterations without error |
| DeconvolvePriv.StackBounded | deconvolve/cpp/src/deconvolve_priv.cpp:220-222 | the lambda stack never holds more than three values |
| DeconvolvePriv.UserCallbackKeepsStack | deconvolve/cpp/src/deconvolve_priv.cpp:147-149 | with a user callback the lambda stack is never touched |
| DeconvolvePriv.DeconvolvePrivate.constructor | deconvolve/cpp/src/deconvolve_priv.hpp:95-110 | fresh settings, no PSF, no callback, regularisation on, 100 iterations, SNR unset (-1) |
| DeconvolvePriv.DeconvolvePrivate.SetPsf | deconvolve/cpp/src/deconvolve_priv.cpp:44-47 | stores the PSF and drops the cached OTF, or reports an inconsistent size and leaves the PSF as it was |
| DeconvolvePriv.DeconvolvePrivate.SetCallback | deconvolve/cpp/src/deconvolve_priv.cpp:50-53 | the callback is set and nothing else changes |
| DeconvolvePriv.DeconvolvePrivate.ClearCallback | deconvolve/cpp/src/deconvolve_priv.cpp:56-59 | no callback is set and nothing else changes |
| DeconvolvePriv.DeconvolvePrivate.SetRegularization | deconvolve/cpp/src/deconvolve_priv.cpp:62-71 | the regularisation flag is set and nothing else changes |
| DeconvolvePriv.DeconvolvePrivate.SetSnr | deconvolve/cpp/src/deconvolve_priv.cpp:74-77 | the SNR is stored and nothing else changes |
| DeconvolvePriv.DeconvolvePrivate.ClearSnr | deconvolve/cpp/src/deconvolve_priv.cpp:80-83 | the SNR is back to -1 (estimate it) and nothing else changes |
| DeconvolvePriv.DeconvolvePrivate.SetMaxIterations | deconvolve/cpp/src/deconvolve_priv.hpp:61 | the cap is stored and nothing else changes |
| DeconvolvePriv.DeconvolvePrivate.ClearMaxIterations | deconvolve/cpp/src/deconvolve_priv.hpp:62 | the cap is back to 100 and nothing else changes |
| DeconvolvePriv.DeconvolvePrivate.SetFftwHandlers | deconvolve/cpp/src/deconvolve_priv.cpp:86-91 | new settings with the handlers and a new id, so no cached OTF is reused; nothing else changes |
| DeconvolvePriv.DeconvolvePrivate.ClearFftwHandlers | deconvolve/cpp/src/deconvolve_priv.cpp:94-100 | new settings without user handlers and a new id; nothing else changes |
| DeconvolvePriv.DeconvolvePrivate.CallbackDefault | deconvolve/cpp/src/deconvolve_priv.cpp:198-225 | answers from the stack before the push, pushes lambda keeping the newest three, and changes nothing else |
| DeconvolvePriv.DeconvolvePrivate.Convolve | deconvolve/cpp/src/deconvolve_priv.cpp:102-113 | without a PSF: an error; an image of the wrong size: an error; a freshly built OTF of zero sum: an error; otherwise the image convolved with the OTF for its grid |
| DeconvolvePriv.DeconvolvePrivate.Prepare | deconvolve/cpp/src/deconvolve_priv.cpp:119-123 | the shared start of convolve and deconvolve, with the same error cases, giving the image and the OTF |
| DeconvolvePriv.DeconvolvePrivate.Deconvolve | deconvolve/cpp/src/deconvolve_priv.cpp:116-195 | the same error cases, then the outcome of the iteration loop with the effective SNR, and the lambda stack it leaves |
| DeconvolvePriv.DeconvolvePrivate.Iterate | deconvolve/cpp/src/deconvolve_priv.cpp:131-194 | the loop, with the stack cleared first, yields the outcome of the loop function and leaves its stack |
| DeconvolvePriv.DeconvolvePrivate.Ask | deconvolve/cpp/src/deconvolve_priv.cpp:147-152 | the loop condition equals the specification's and updates the lambda stack as it does |
| DeconvolveApi.Bind | deconvolve/cpp/src/deconvolve.cpp:78-82 | the bound callback answers as the extended callback does with the stored user data |
| DeconvolveApi.CancelFactor | deconvolve/cpp/src/deconvolve.cpp:56-62 | a common factor of numerator and denominator cancels |
| DeconvolveApi.SampleUnitFree | deconvolve/cpp/src/psf.cpp:94-97 | the PSF sample an output index falls on is the same when both voxel sizes are multiplied by the same factor |
| DeconvolveApi.ScaledNonZero | deconvolve/cpp/src/deconvolve.cpp:62 | scaling non-zero voxel sizes by a non-zero factor keeps them non-zero |
| DeconvolveApi.InterpAtUnitFree | deconvolve/cpp/src/psf.cpp:92-150 | each resampled voxel is the same when both grids are given in another unit |
| DeconvolveApi.SameSamples | deconvolve/cpp/src/psf.cpp:92-150 | two resamplings that pick the same PSF samples give the same voxel |
| DeconvolveApi.ResamplingUnitFree | deconvolve/cpp/src/psf.cpp:92-150 | the whole resampled PSF is the same when both grids are expressed in another common unit |
| DeconvolveApi.Deconvolve.constructor | deconvolve/cpp/src/deconvolve.cpp:42-49 | a new engine: regularised, 100 iterations, no PSF, no callback, SNR unset |
| DeconvolveApi.Deconvolve.SetPsf | deconvolve/cpp/src/deconvolve.cpp:59-63 | the PSF is stored with its voxel sizes converted from meters to nanometers |
| DeconvolveApi.Deconvolve.SetCallback | deconvolve/cpp/src/deconvolve.cpp:65-75 | the callback is set and nothing else changes |
| DeconvolveApi.Deconvolve.SetCallbackExtended | deconvolve/cpp/src/deconvolve.cpp:77-82 | the callback set answers as the extended callback with the user data; nothing else changes |
| DeconvolveApi.Deconvolve.ClearCallback | deconvolve/cpp/src/deconvolve.cpp:84-88 | no callback is set and nothing else changes |
| DeconvolveApi.Deconvolve.EnableRegularization | deconvolve/cpp/src/deconvolve.cpp:90-94 | regularisation is on and nothing else changes |
| DeconvolveApi.Deconvolve.DisableRegularization | deconvolve/cpp/src/deconvolve.cpp:96-100 | regularisation is off and nothing else changes |
| DeconvolveApi.Deconvolve.Regularized | deconvolve/cpp/src/deconvolve.cpp:102-106 | reports the regularisation flag |
| DeconvolveApi.Deconvolve.SetSnr | deconvolve/cpp/src/deconvolve.cpp:108-112 | the SNR is stored and nothing else changes |
| DeconvolveApi.Deconvolve.ClearSnr | deconvolve/cpp/src/deconvolve.cpp:114-118 | the SNR is unset and nothing else changes |
| DeconvolveApi.Deconvolve.SetMaxIterations | deconvolve/cpp/src/deconvolve.cpp:120-124 | the cap is stored and nothing else changes |
| DeconvolveApi.Deconvolve.ClearMaxIterations | deconvolve/cpp/src/deconvolve.cpp:126-130 | the cap is back to 100 and nothing else changes |
| DeconvolveApi.Deconvolve.MaxIterations | deconvolve/cpp/src/deconvolve.cpp:132-136 | reports the cap |
| DeconvolveApi.Deconvolve.SetFftwHandlers | deconvolve/cpp/src/deconvolve.cpp:138-144 | handlers installed under a new settings id, so no cached OTF survives; nothing else changes |
| DeconvolveApi.Deconvolve.ClearFftwHandlers | deconvolve/cpp/src/deconvolve.cpp:146-150 | handlers removed under a new settings id; nothing else changes |
| DeconvolveApi.Deconvolve.Convolve | deconvolve/cpp/src/deconvolve.cpp:152-158 | the engine's convolve on a copy, with voxel sizes converted to nanometers, including its error cases |
| DeconvolveApi.Deconvolve.Deconvolve | deconvolve/cpp/src/deconvolve.cpp:160-166 | the engine's deconvolve on a copy, with voxel sizes converted to nanometers, including its error cases |
| DeconvolveApi.ApiUnitsAgree | deconvolve/cpp/src/deconvolve.cpp:56-62 | converting both the PSF's and the image's voxel sizes to nanometers gives the same resampled PSF as leaving both in meters |
| PsfOtf.GetInd | deconvolve/cpp/src/psf.cpp:68-72 | the fractional PSF index whose voxel centre lies at the given distance from the grid centre |
| PsfOtf.CentresCoincide | deconvolve/cpp/src/psf.cpp:68-72 | distance 0 maps to the PSF centre (n−1)/2, and the centre of voxel i maps back to i |
| PsfOtf.Sample | deconvolve/cpp/src/psf.cpp:94-97 | the integer part and the fraction add up to the fractional PSF index of the output voxel's centre |
| PsfOtf.InBoundsIff | deconvolve/cpp/src/psf.cpp:116-118 | a sample is interpolated exactly when the PSF axis has at least 2 entries and the index lies strictly between −1 and m−1 |
| PsfOtf.TruncInBounds | deconvolve/cpp/src/psf.cpp:96-118 | truncation toward zero lands in [0, m−1) exactly when the index lies in (−1, m−1) |
| PsfOtf.NegativeFractionPasses | deconvolve/cpp/src/psf.cpp:96-118 | an index in (−1, 0) truncates to 0 and passes the bounds test with a negative fraction, so it extrapolates beyond the first PSF plane |
| PsfOtf.FractionInUnit | deconvolve/cpp/src/psf.cpp:96-97 | for a non-negative index the fraction lies in [0, 1) |
| PsfOtf.LerpBetween | deconvolve/cpp/src/psf.cpp:130-138 | a linear blend with weight in [0,1] stays between bounds holding for both ends |
| PsfOtf.TrilinearConvex | deconvolve/cpp/src/psf.cpp:120-140 | with fractions in [0,1] the trilinear value stays between bounds holding for the eight corners, and at fraction 0 it is the corner c000 |
| PsfOtf.FlatIndex | deconvolve/cpp/src/psf.cpp:87-88 | the C-order index of a voxel lies inside the volume |
| PsfOtf.Coords | deconvolve/cpp/src/psf.cpp:87-88 | the coordinates of a flat index are in range and map back to it |
| PsfOtf.CoordsOfFlat | deconvolve/cpp/src/psf.cpp:87-88 | coordinates survive the round trip through the flat index |
| PsfOtf.Shift | deconvolve/cpp/src/psf.cpp:145-147 | the shifted index (i + n/2 + 1) mod n stays in range |
| PsfOtf.Unshift | deconvolve/cpp/src/psf.cpp:145-147 | the inverse shift stays in range |
| PsfOtf.ShiftBijection | deconvolve/cpp/src/psf.cpp:145-147 | the shift and its inverse undo each other, so every output voxel is written exactly once |
| PsfOtf.CentreToOrigin | deconvolve/cpp/src/psf.cpp:143-147 | the centre voxel (n−1)/2 is moved to index 0, so the convolved image does not move |
| PsfOtf.StoreAt | deconvolve/cpp/src/psf.cpp:149 | where a voxel's value is stored lies inside the volume |
| PsfOtf.Source | deconvolve/cpp/src/psf.cpp:145-149 | the output voxel whose value lands at a given position is in range |
| PsfOtf.Interpolated | deconvolve/cpp/src/psf.cpp:86-152 | the resampled PSF has the image's volume |
| PsfOtf.StoreAtSource | deconvolve/cpp/src/psf.cpp:145-149 | the store position and its source voxel determine each other |
| PsfOtf.InterpolatedPlacement | deconvolve/cpp/src/psf.cpp:113-149 | each output voxel's trilinear value is stored at its shifted position |
| PsfOtf.SingleSampleAxisVanishes | deconvolve/cpp/src/psf.cpp:116-118 | a PSF with a single plane on any axis resamples to all zeros, so its normalisation divides by 0 |
| PsfOtf.OwnGridCopies | deconvolve/cpp/src/psf.cpp:94-141 | on the PSF's own grid every voxel is copied, except those on the last plane of any axis, which become 0 |
| PsfOtf.Normalised | deconvolve/cpp/src/psf.cpp:154-157 | every value divided by the sum, same length |
| PsfOtf.NormalisedSumsToOne | deconvolve/cpp/src/psf.cpp:154-157 | after normalising by a non-zero sum the values sum to 1 |
| PsfOtf.FlatIndexInLine | deconvolve/cpp/src/psf.cpp:92-111 | the loop nest visits voxels in C order, line by line |
| PsfOtf.LineBaseNext | deconvolve/cpp/src/psf.cpp:92-111 | consecutive lines and planes of the loop nest are adjacent in C order |
| PsfOtf.Partial | deconvolve/cpp/src/psf.cpp:86-150 | the buffer after the first k voxels of the loop nest has the full length |
| PsfOtf.PartialStep | deconvolve/cpp/src/psf.cpp:149 | storing one more voxel's value extends the partial buffer by that voxel |
| PsfOtf.PartialEnds | deconvolve/cpp/src/psf.cpp:86-149 | the partial buffer starts as all zeros and ends as the resampled PSF |
| PsfOtf.FillLine | deconvolve/cpp/src/psf.cpp:106-150 | the innermost loop fills one line of the buffer |
| PsfOtf.VoxelValue | deconvolve/cpp/src/psf.cpp:108-141 | one voxel's interpolated value, 0 out of bounds |
| PsfOtf.StoreVoxel | deconvolve/cpp/src/psf.cpp:145-149 | one voxel's value is stored at its shifted position |
| PsfOtf.FillPlane | deconvolve/cpp/src/psf.cpp:99-151 | the middle loop fills one plane |
| PsfOtf.Resample | deconvolve/cpp/src/psf.cpp:86-152 | the loop nest yields exactly the resampled PSF |
| PsfOtf.Accumulate | deconvolve/cpp/src/psf.cpp:155 | the accumulated value is the sum of the buffer |
| PsfOtf.NormaliseInPlace | deconvolve/cpp/src/psf.cpp:156-157 | in place, every value is divided by the sum |
| PsfOtf.Psf.constructor | deconvolve/cpp/src/psf.cpp:33-36 | an empty PSF with no cached OTF |
| PsfOtf.Psf.Set | deconvolve/cpp/src/psf.cpp:50-66 | a non-empty vector whose size differs from n1·n2·n3 is refused and nothing changes; otherwise data, dims and voxel sizes are stored and the cached OTF is dropped |
| PsfOtf.Psf.Otf | deconvolve/cpp/src/psf.cpp:74-162 | an empty PSF is an error; a cache hit (same settings, dims and voxel sizes) returns the cached OTF unchanged; otherwise the resampled PSF, normalised to sum 1 (a zero sum is an error), becomes the new cached OTF |
| PsfOtf.NewPsf | deconvolve/cpp/src/psf.cpp:38-42 | constructing with data fails exactly when set would refuse it, otherwise a fresh PSF holding it |
| PsfOtf.NewHandlersForceRecompute | deconvolve/cpp/src/psf.cpp:80-83 | an OTF cached under one settings object is not reused under settings with a later id |
| Images.LastDim | deconvolve/cpp/src/image.cpp:97-101 | the padded row length 2·(n3/2+1) is even and lies in (n3, n3+2] |
| Images.RowStart | deconvolve/cpp/src/image.cpp:162-168 | row r starts at r·w and the whole row stays inside the buffer |
| Images.RowBelow | deconvolve/cpp/src/image.cpp:162-168 | a position inside rows·w belongs to one of the rows |
| Images.Pad | deconvolve/cpp/src/image.cpp:162-168 | the padded position of a C-order voxel lies in the buffer and keeps the voxel's column |
| Images.PadRowColumn | deconvolve/cpp/src/image.cpp:162-168 | voxel (row r, column c) is stored at r·last_dim + c |
| Images.Row | deconvolve/cpp/src/image.cpp:193-198 | one row without its padding has n3 values |
| Images.RealRows | deconvolve/cpp/src/image.cpp:182-199 | the first m rows without padding hold m·n3 values |
| Images.RealRowsAt | deconvolve/cpp/src/image.cpp:182-199 | each value of the unpadded rows is the buffer's value at the voxel's padded position |
| Images.RealRowsFrame | deconvolve/cpp/src/image.cpp:182-199 | the unpadded first m rows depend only on the buffer's first m padded rows |
| Images.RealPart | deconvolve/cpp/src/image.cpp:182-199 | the real image has n1·n2·n3 voxels, each read from its padded position |
| Images.FirstVoxel | deconvolve/cpp/src/image.cpp:530 | the first real voxel is the buffer's first entry, which get_stats starts from |
| Images.Unpad | deconvolve/cpp/src/image.cpp:162-168 | every non-padding buffer position is the padded position of exactly one voxel |
| Images.PadCovers | deconvolve/cpp/src/image.cpp:162-168 | a buffer position is some voxel's padded position exactly when it is not padding |
| Images.RealPartIgnoresPadding | deconvolve/cpp/src/image.cpp:182-199 | two buffers give the same image exactly when they agree on every non-padding position |
| Images.SameVoxelNotTransitive | deconvolve/cpp/src/image.cpp:115-120 | the 1e-13 tolerance of same_voxel makes it non-transitive |
| Images.Apply | deconvolve/cpp/src/image.cpp:296-321 | invdivide gives 0 for a non-positive value v and otherwise the w with w = r·v; prod gives the product |
| Images.CombinedVoxelwise | deconvolve/cpp/src/image.cpp:282-323 | each real voxel becomes the operation on the two images' voxels, and padding positions keep their value |
| Images.MinMod | deconvolve/cpp/src/image.cpp:360-374 | 0 unless both arguments have the same strict sign; then the argument of smaller magnitude |
| Images.MinModSymmetric | deconvolve/cpp/src/image.cpp:360-374 | the minmod limiter is symmetric |
| Images.StatsOf | deconvolve/cpp/src/image.cpp:523-548 | the minimum, the maximum and the sum of a non-empty image |
| Images.StatsTo | deconvolve/cpp/src/image.cpp:537-547 | the statistics of the first k voxels |
| Images.StatsStep | deconvolve/cpp/src/image.cpp:542-545 | one loop step updates min, max and sum to those of the longer prefix |
| Images.StatsUnique | deconvolve/cpp/src/image.cpp:523-548 | the statistics of an image are determined by it |
| Images.SoFarIsStats | deconvolve/cpp/src/image.cpp:529-547 | the loop's running values, started from the first voxel, are the statistics of the voxels seen |
| Images.SqDistToPrefix | deconvolve/cpp/src/image.cpp:562-572 | the squared distance over the first k voxels ignores what follows |
| Images.SqDistAppend | deconvolve/cpp/src/image.cpp:569-570 | one more voxel adds its squared difference |
| Images.SqDistConcat | deconvolve/cpp/src/image.cpp:562-572 | the squared distance of concatenations is the sum of the parts' |
| Images.SqDistToZeroIff | deconvolve/cpp/src/image.cpp:562-572 | the partial squared distance is non-negative and 0 exactly when the prefixes agree |
| Images.SqDistZeroIff | deconvolve/cpp/src/image.cpp:550-575 | nrm2 is non-negative and 0 exactly when the images are equal |
| Images.Nrm2IsSquared | deconvolve/cpp/src/image.cpp:569-574 | nrm2 returns the squared Euclidean distance (no square root), although the callback documentation calls it the Euclidean norm |
| Images.Image.Voxels | deconvolve/cpp/src/image.cpp:182-199 | the image's real voxels, n1·n2·n3 of them |
| Images.Image.constructor | deconvolve/cpp/src/image.cpp:48-55 | an allocated image with the given settings, dims and voxel sizes and no plans |
| Images.Image.SameSettings | deconvolve/cpp/src/image.hpp:191 | true exactly when both settings exist and share an id |
| Images.Image.ReleaseData | deconvolve/cpp/src/image.cpp:83-94 | the buffer is released and the settings are kept |
| Images.Image.Set | deconvolve/cpp/src/image.cpp:141-170 | a non-empty vector of the wrong size is refused and nothing changes; otherwise a fresh buffer with the new dims and voxel sizes, holding the data when given |
| Images.Image.CopyIn | deconvolve/cpp/src/image.cpp:159-169 | after the copy the image's voxels are the source vector |
| Images.Image.CopyRow | deconvolve/cpp/src/image.cpp:164-167 | one outer step copies the next n3 source values into the next padded row |
| Images.Image.CopyData | deconvolve/cpp/src/image.cpp:172-179 | incompatible images are refused with the data unchanged; otherwise the whole buffer is copied |
| Images.Image.GetImage | deconvolve/cpp/src/image.cpp:181-199 | an empty image is an error; otherwise its real voxels without padding |
| Images.Image.AppendRow | deconvolve/cpp/src/image.cpp:195-197 | appends row i without its padding |
| Images.Image.At | deconvolve/cpp/src/image.cpp:348-358 | voxel (i, j, k) is the image's C-order voxel (i·n2 + j)·n3 + k |
| Images.Image.Swap | deconvolve/cpp/src/image.cpp:201-211 | data, dims, voxel sizes and plans are exchanged; the settings stay |
| Images.Image.InvDivideImage | deconvolve/cpp/src/image.cpp:281-303 | incompatible images are refused; otherwise each real voxel v becomes 0 if v <= 0 and image/v otherwise |
| Images.Image.ProdImage | deconvolve/cpp/src/image.cpp:305-323 | incompatible images are refused; otherwise each real voxel is multiplied by the other image's |
| Images.Image.Combine | deconvolve/cpp/src/image.cpp:287-302 | the row loop applies the operation to every real voxel |
| Images.Image.CombineRow | deconvolve/cpp/src/image.cpp:294-301 | one row of the loop is combined and the rest is untouched |
| Images.Image.GetStats | deconvolve/cpp/src/image.cpp:523-548 | an empty image is an error; otherwise the min, max and sum of its voxels |
| Images.Image.StatsRow | deconvolve/cpp/src/image.cpp:539-546 | one row of the loop extends the running statistics by that row |
| Images.Image.Nrm2 | deconvolve/cpp/src/image.cpp:550-575 | an empty image is an error; otherwise the sum of squared voxel differences |
| Images.Image.AddRowSqDist | deconvolve/cpp/src/image.cpp:565-571 | one row of the loop adds that row's squared differences |
| Images.NewImage | deconvolve/cpp/src/image.cpp:39-46 | constructing fails exactly when set would refuse the data; otherwise a fresh image holding it |
| Images.SetGetRoundTrip | deconvolve/cpp/src/image.cpp:141-199 | setting an image and reading it back returns the same vector |
| FftwSettings.InitOutcome | deconvolve/cpp/src/image_settings.cpp:48-58 | already initialised succeeds; otherwise it fails exactly when thread initialisation fails |
| FftwSettings.InitIdempotent | deconvolve/cpp/src/image_settings.cpp:48-58 | once initialisation succeeded, a second call succeeds whatever happens |
| FftwSettings.FftwState.constructor | deconvolve/cpp/src/image_settings.cpp:44 | FFTW starts uninitialised |
| FftwSettings.FftwState.Init | deconvolve/cpp/src/image_settings.cpp:48-58 | returns the initialisation outcome and records success |
| FftwSettings.PlanOutcome | deconvolve/cpp/src/image_settings.cpp:106-155 | a user planner's plan is returned as it is; the built-in planner fails when initialisation fails or the plan is NULL |
| FftwSettings.NullPlanOnlyFromUser | deconvolve/cpp/src/image_settings.cpp:106-155 | a NULL plan can only come back from a user planner |
| FftwSettings.ClearOutcome | deconvolve/cpp/src/image_settings.cpp:157-173 | a user destroyer receives every plan; the built-in one destroys exactly the non-NULL plans |
| FftwSettings.ImageSettings.constructor | deconvolve/cpp/src/image_settings.cpp:67-70 | id 0 and no user handlers |
| FftwSettings.ImageSettings.WithHandlers | deconvolve/cpp/src/image_settings.cpp:72-82 | the old id plus one, with the given handlers |
| FftwSettings.ImageSettings.Copy | deconvolve/cpp/src/image_settings.cpp:85-94 | the old handlers, and the old id incremented on request |
| FftwSettings.ImageSettings.SameShared | deconvolve/cpp/src/image_settings.hpp:84 | true exactly when the other settings exist and have the same id |
| FftwSettings.ImageSettings.ForwardPlan | deconvolve/cpp/src/image_settings.cpp:106-130 | the forward plan outcome, initialising FFTW only on the built-in path |
| FftwSettings.ImageSettings.InversePlan | deconvolve/cpp/src/image_settings.cpp:132-155 | the inverse plan outcome, initialising FFTW only on the built-in path |
| FftwSettings.ImageSettings.ClearPlan | deconvolve/cpp/src/image_settings.cpp:157-173 | the user destroyer without touching FFTW, or initialise FFTW and destroy a non-NULL plan |
| FftwSettings.MakePlan | deconvolve/cpp/src/image_settings.cpp:106-155 | the shared planning path of both directions |
| FftwSettings.NewHandlersInvalidate | deconvolve/cpp/src/image_settings.hpp:80-84 | settings with a bumped id are not the same as their base, while an unbumped copy is |
| ExtractPsf.DualParabola | deconvolve/python/calc/psf.py:159-162 | neg·z² for z <= 0 and pos·z² for z > 0 |
| ExtractPsf.DualParabolaMirror | deconvolve/python/calc/psf.py:159-162 | mirroring z and swapping the two coefficients gives the same value |
| ExtractPsf.CheckAxes | deconvolve/python/calc/psf.py:199-203 | the loop from axis i accepts exactly when every remaining axis has room for the half field on both sides |
| ExtractPsf.CheckBoundary | deconvolve/python/calc/psf.py:199-203 | true exactly when c−h >= 0 and c+h+1 <= shape on every axis |
| ExtractPsf.CandidateCrop | deconvolve/python/calc/psf.py:304-305 | the candidate window has the shape Python slicing gives |
| ExtractPsf.WindowInside | deconvolve/python/calc/psf.py:304 | a window that passes the boundary check starts at c−h and has 2h+1 entries |
| ExtractPsf.BoundaryCropInside | deconvolve/python/calc/psf.py:299-305 | after the boundary check the candidate is exactly the (2h+1)-cube of stack voxels around the maximum |
| ExtractPsf.FieldOf | deconvolve/python/calc/psf.py:232-235 | a zero Z or X spacing is a division error; otherwise each field size is 7·(resolution in px) bumped to odd, and the halves are size//2 |
| ExtractPsf.OddHalf | deconvolve/python/calc/psf.py:234-235 | an odd field size is 2·half+1 |
| ExtractPsf.FieldPositive | deconvolve/python/calc/psf.py:234-235 | non-negative odd field sizes are at least 1 and their halves non-negative |
| ExtractPsf.SupersampledExtent | deconvolve/python/calc/psf.py:282 | with two added nodes an axis of j samples becomes 3(j−1)+1, odd when j is odd and positive when j is |
| ExtractPsf.Deviations | deconvolve/python/calc/psf.py:253 | one squared deviation per value |
| ExtractPsf.BelowCut | deconvolve/python/calc/psf.py:254-264 | one flag per voxel |
| ExtractPsf.Foreground | deconvolve/python/calc/psf.py:270 | a voxel is foreground exactly when it is at least mean + std of the final background statistics |
| ExtractPsf.CountTrue | deconvolve/python/calc/psf.py:263 | the number of selected voxels is at most the number of voxels |
| ExtractPsf.Selected | deconvolve/python/calc/psf.py:259-260 | the selection has one value per set flag |
| ExtractPsf.NothingSelected | deconvolve/python/calc/psf.py:259-260 | an empty mask selects nothing |
| ExtractPsf.EstimateBackground | deconvolve/python/calc/psf.py:252-270 | the loop computes exactly the specified background estimate |
| ExtractPsf.BackgroundOf | deconvolve/python/calc/psf.py:252-270 | the background estimate, started from the statistics of every voxel |
| ExtractPsf.BackgroundBounded | deconvolve/python/calc/psf.py:258-268 | the loop stops after at most 10 rounds and its mask is the foreground of its final statistics |
| ExtractPsf.BackgroundIterations | deconvolve/python/calc/psf.py:258-270 | a successful estimate took between 1 and 10 rounds and its foreground is mean + std thresholded |
| ExtractPsf.ConstantSum | deconvolve/python/calc/psf.py:252 | a constant image sums to its size times the constant |
| ExtractPsf.UniformStackFails | deconvolve/python/calc/psf.py:254-266 | on a uniform blurred stack the strict mask selects nothing, so the next mean divides by zero |
| ExtractPsf.UniformFirstIteration | deconvolve/python/calc/psf.py:258-266 | on a uniform stack the first round continues with an empty selection |
| ExtractPsf.DropAll | deconvolve/python/calc/psf.py:266 | losing every voxel is a relative drop of 1 |
| ExtractPsf.EmptyCountFails | deconvolve/python/calc/psf.py:259-260 | statistics of an empty selection are a division by zero |
| ExtractPsf.UniformMoments | deconvolve/python/calc/psf.py:252-253 | a uniform stack has its value as mean and 0 as standard deviation |
| ExtractPsf.SupersampledVolume | deconvolve/python/calc/psf.py:282 | the accumulator holds the product of the supersampled extents, at least 1 |
| ExtractPsf.CountAtLeast | deconvolve/python/calc/psf.py:309 | the FWHM volume is at most the candidate's size |
| ExtractPsf.DistSq | deconvolve/python/calc/psf.py:318 | the squared physical distance between maximum and centre of mass is non-negative |
| ExtractPsf.GridDistSq | deconvolve/python/calc/psf.py:348 | the squared grid distance is non-negative |
| ExtractPsf.Roll | deconvolve/python/calc/psf.py:354 | rolling keeps the length |
| ExtractPsf.Resize | deconvolve/python/calc/psf.py:339-340 | resizing keeps the first entries and pads with zeros |
| ExtractPsf.Normalised | deconvolve/python/calc/psf.py:362-363 | subtracting the percentile and dividing by the peak keeps the length |
| ExtractPsf.Shifted | deconvolve/python/calc/psf.py:362 | subtracting the percentile keeps the length |
| ExtractPsf.Rolled | deconvolve/python/calc/psf.py:338-354 | the resampled, rolled candidate has the accumulator's length |
| ExtractPsf.Window3 | deconvolve/python/calc/psf.py:304-305 | the candidate window is not empty |
| ExtractPsf.Lowered | deconvolve/python/calc/psf.py:362 | the lowered candidate is not empty and has the accumulator's length |
| ExtractPsf.Rescaled | deconvolve/python/calc/psf.py:363 | a zero peak gives Flat; otherwise an accepted candidate of the accumulator's length |
| ExtractPsf.Assess | deconvolve/python/calc/psf.py:296-363 | the checks in order (border, FWHM volume, centre distance, resampled alignment) end in an accepted candidate of the accumulator's length |
| ExtractPsf.RollRotates | deconvolve/python/calc/psf.py:354 | np.roll on the flattened array is a rotation |
| ExtractPsf.RollPermutes | deconvolve/python/calc/psf.py:354 | np.roll permutes the values, element i moving to (i + shift) mod n |
| ExtractPsf.Zeros | deconvolve/python/calc/psf.py:282 | the accumulator starts as zeros |
| ExtractPsf.AddVec | deconvolve/python/calc/psf.py:364 | adding a candidate adds voxel by voxel |
| ExtractPsf.Verdicts | deconvolve/python/calc/psf.py:284-365 | one verdict per label, the assessment of its measurements |
| ExtractPsf.TallyOf | deconvolve/python/calc/psf.py:279-365 | a successful tally keeps the accumulator's length |
| ExtractPsf.Visit | deconvolve/python/calc/psf.py:299-364 | one label: discarded ones are recorded, misaligned ones skipped, accepted ones added |
| ExtractPsf.TallyOfNext | deconvolve/python/calc/psf.py:284 | the tally of one more label is one more visit |
| ExtractPsf.FailureSticks | deconvolve/python/calc/psf.py:363 | once the tally fails it stays failed |
| ExtractPsf.AccumulateCandidates | deconvolve/python/calc/psf.py:279-365 | the label loop computes exactly the specified tally |
| ExtractPsf.VisitLabel | deconvolve/python/calc/psf.py:299-364 | one loop body computes exactly one visit |
| ExtractPsf.DiscardedExactly | deconvolve/python/calc/psf.py:299-323 | the discarded labels are exactly the labels failing one of the first three checks, 1-based and increasing |
| ExtractPsf.CountIsAccepted | deconvolve/python/calc/psf.py:357 | the count is the number of accepted candidates; misaligned ones are not counted |
| ExtractPsf.AcceptedLabels | deconvolve/python/calc/psf.py:357 | no more accepted labels than labels |
| ExtractPsf.AcceptedPeakIsOne | deconvolve/python/calc/psf.py:362-363 | an accepted candidate with a positive peak is at most 1 everywhere and equal to 1 somewhere |
| ExtractPsf.NormalisedPeak | deconvolve/python/calc/psf.py:362-363 | after dividing by a positive maximum the peak is exactly 1 |
| ExtractPsf.PositivePeaksAtMostOne | deconvolve/python/calc/psf.py:362-363 | when every peak is positive, every accepted candidate is at most 1 |
| ExtractPsf.SumAtMostCount | deconvolve/python/calc/psf.py:364 | each voxel of the accumulator is at most the count |
| ExtractPsf.Clip | deconvolve/python/calc/psf.py:369 | clipping gives a non-negative value |
| ExtractPsf.AverageOf | deconvolve/python/calc/psf.py:368-369 | the average is non-negative and has the accumulator's length |
| ExtractPsf.AverageInUnitRange | deconvolve/python/calc/psf.py:362-369 | with positive peaks the average lies in [0, 1] |
| ExtractPsf.Cleared | deconvolve/python/calc/psf.py:371-372 | each label is kept or set to 0, and a label that was not discarded is kept |
| ExtractPsf.ClearDiscarded | deconvolve/python/calc/psf.py:371-372 | the loop clears exactly the discarded labels |
| ExtractPsf.AverageCandidates | deconvolve/python/calc/psf.py:279-372 | the loop and the averaging compute exactly the specified result |
| ExtractPsf.ExtractPsfs | deconvolve/python/calc/psf.py:206-378 | the whole extraction, including its error cases, with odd supersampled sizes and a third of the spacings |
| ExtractPsf.Extraction | deconvolve/python/calc/psf.py:206-378 | the field sizes, then the background, then the averaged candidates, each stage's failure ending the extraction |
| ExtractPsf.AveragedShape | deconvolve/python/calc/psf.py:367-378 | a successful extraction has the supersampled shape, at least one candidate, and a non-negative average |
| ReadXml.OddMax | deconvolve/read_xml.py:52-57 | the result bounds both arguments; it is `y` when `x <= y`, and otherwise the odd number among `x` and `x + 1` |
| ReadXml.FixedIndices | deconvolve/read_xml.py:59-63 | the pair ends with `i0 >= mn` and `i1 < mx`; both ends moved inwards by the same amount, so the midpoint is kept |
| ReadXml.FixSteps | deconvolve/read_xml.py:60-62 | the number of loop turns is the least one at which the window satisfies the exit test |
| ReadXml.FixIndices | deconvolve/read_xml.py:59-63 | the while loop returns exactly the pair `FixedIndices` describes |
| ReadXml.FixIndicesCanCross | deconvolve/read_xml.py:59-63 | when the allowed range is narrower than the window, the loop stops with the ends crossed (`i0 > i1`) |
| ReadXml.Expanded | deconvolve/read_xml.py:89-103 | a window that is already wide enough is returned unchanged; otherwise it grows to exactly `shape` inside `[0, max_i]`; it raises the ValueError exactly when the room left is smaller than `shape` |
| ReadXml.ExpandIndices | deconvolve/read_xml.py:89-103 | the while loop returns the `Expanded` result, including the ValueError path |
| ReadXml.ExpandBoth | deconvolve/read_xml.py:90-96 | one turn that moves both ends does not change the final result |
| ReadXml.ExpandLow | deconvolve/read_xml.py:91-98 | one turn that moves only `i0` does not change the final result |
| ReadXml.ExpandHigh | deconvolve/read_xml.py:95-96 | one turn that moves only `i1` does not change the final result |
| ReadXml.HigherType | deconvolve/read_xml.py:76-87 | a tabled dtype becomes the type of the same kind with twice the bits (float64 only when float128 exists); any other dtype is returned unchanged |
| ReadXml.Clamp | deconvolve/read_xml.py:118-123 | `min(max(v, lo), hi)` lies in `[lo, hi]` when `lo <= hi`, keeps `v` when it is already inside, and gives `hi` when the bounds cross |
| ReadXml.CentreDistSq | deconvolve/read_xml.py:130-131 | the squared distance between the maximum and the centre of mass is non-negative |
| ReadXml.Recentred | deconvolve/read_xml.py:114-116 | moving the window onto the smoothed maximum keeps its extent on every axis |
| ReadXml.Clamped | deconvolve/read_xml.py:118-123 | a clamped window lies inside a valid range, and a window already inside is left as it is |
| ReadXml.MaximumCentering | deconvolve/read_xml.py:105-137 | the window lies inside the range; the "too small" message comes exactly when its extent differs from the PSF shape; the "too far" message comes exactly when the extent fits and the distance exceeds 3 voxels; no message implies the extent is the PSF shape |
| ReadXml.BlurStep | deconvolve/read_xml.py:333 | `max(1, int(x))` is at least 1 and is the integer part of `x` when `x >= 1` |
| ReadXml.BlurSteps | deconvolve/read_xml.py:326-333 | the blur steps fail exactly on a zero aperture or a zero voxel size (Python's division by zero); otherwise every step is at least 1 |
| ReadXml.LateralResolution | deconvolve/read_xml.py:326 | `excitation/(2·NA)` in metres |
| ReadXml.AxialResolution | deconvolve/read_xml.py:327 | `2·excitation/NA²` in metres |
| ReadXml.Block | deconvolve/read_xml.py:340-346 | block `(a, b, c)` of the strided samples is the `nz x ny x nx` box of voxels starting at `(a*nz, b*ny, c*nx)` |
| ReadXml.Strided | deconvolve/read_xml.py:344-345 | `image[i:nz*mz:nz, j:ny*my:ny, k:nx*mx:nx]` has shape `(mz, my, mx)`, and its voxel `(a, b, c)` is sample `(i, j, k)` of block `(a, b, c)` |
| ReadXml.Binned | deconvolve/read_xml.py:335-347 | the blurred stack has shape `(size // step)` on each axis, and each voxel is the mean of its block |
| ReadXml.ZeroVolume | deconvolve/read_xml.py:339 | `np.zeros` of the given shape holds 0 everywhere |
| ReadXml.AddVolume | deconvolve/read_xml.py:346 | `+=` adds the two stacks voxel by voxel |
| ReadXml.DivVolume | deconvolve/read_xml.py:347 | `/=` divides every voxel by the block size |
| ReadXml.AddRowSamples | deconvolve/read_xml.py:342-346 | the innermost loop adds to each accumulator voxel the sum of row `(i, j)` of its block |
| ReadXml.AddPlaneSamples | deconvolve/read_xml.py:341-346 | the middle loop adds to each accumulator voxel the sum of plane `i` of its block |
| ReadXml.SummedPlanesMean | deconvolve/read_xml.py:340-347 | once all `nz` planes are summed, dividing by the block size gives the block mean |
| ReadXml.Bin | deconvolve/read_xml.py:339-347 | the triple loop with the final division computes exactly `Binned` |
| ReadXml.MeanWithin | deconvolve/read_xml.py:347 | the mean of values in `[lo, hi]` also lies in `[lo, hi]` |
| ReadXml.BinnedWithin | deconvolve/read_xml.py:339-347 | when every input voxel lies in `[lo, hi]`, every blurred voxel does too |
| ReadXml.RoundHalfAway | deconvolve/read_xml.py:363 | Python 2 `round` is within 0.5 of its argument and rounds a tie away from zero |
| ReadXml.RoundingDiffers | deconvolve/read_xml.py:363 | Python 2 rounding (2.5 to 3) differs from Python 3 rounding (2.5 to 2) |
| ReadXml.AxisWindow | deconvolve/read_xml.py:363-368 | the window of one axis lies inside `[n, size - n)` and stays centred on the rounded cluster centre |
| ReadXml.Windows | deconvolve/read_xml.py:360-369 | `psf_slice_list` holds one window per cluster, in cluster order |
| ReadXml.PsfShapeOf | deconvolve/read_xml.py:357-371 | every component of `psf_shape` is non-negative and is either 0 or odd |
| ReadXml.PsfShapeOfAppend | deconvolve/read_xml.py:371 | one more window updates each component with `odd_max` |
| ReadXml.PsfShapeCovers | deconvolve/read_xml.py:357-371 | `psf_shape` is at least as large as every window's extent |
| ReadXml.ClusterWindows | deconvolve/read_xml.py:356-371 | the loop returns the windows and the PSF shape folded over them |
| ReadXml.ExpandedWindow | deconvolve/read_xml.py:386-388 | a successful expansion never moves a low edge up, and a window the shape covers gets exactly the PSF shape |
| ReadXml.ExpandWindow | deconvolve/read_xml.py:386-388 | the three `expand_indices` calls, stopping at the first ValueError |
| ReadXml.ExpandedFitsShape | deconvolve/read_xml.py:386-388 | every window that expands successfully has exactly the PSF shape |
| ReadXml.CropWindow | deconvolve/read_xml.py:404 | the crop has the window's extent, and voxel `(i, j, k)` is the image voxel at the window origin plus `(i, j, k)` |
| ReadXml.CandidateOf | deconvolve/read_xml.py:385-423 | a candidate that is added has exactly the PSF shape |
| ReadXml.Candidate | deconvolve/read_xml.py:385-423 | one turn of the candidate loop computes `CandidateOf` |
| ReadXml.Candidates | deconvolve/read_xml.py:385-423 | one outcome per window, in window order |
| ReadXml.CandidatesFit | deconvolve/read_xml.py:386-404 | every added crop has the PSF shape, so `psf_sum += psf_canditate` is well-shaped |
| ReadXml.TallyOf | deconvolve/read_xml.py:376-423 | a successful tally has the PSF shape and counts at most one measurement per candidate |
| ReadXml.TallyStep | deconvolve/read_xml.py:415-423 | a skipped candidate leaves the tally unchanged; an accepted one adds its crop and 1 to the count |
| ReadXml.TallyFailureSticks | deconvolve/read_xml.py:385-423 | once a candidate raises, the whole loop raises the same error |
| ReadXml.TallyFailsIff | deconvolve/read_xml.py:385-423 | the loop fails exactly when some candidate raises |
| ReadXml.TallyCountsAccepted | deconvolve/read_xml.py:415-423 | when every candidate is accepted, `nof_measurments` is the number of candidates; when every candidate is skipped, the sum is zero and the count is 0 |
| ReadXml.TallyIsAcceptedSum | deconvolve/read_xml.py:415-423 | a successful loop counts exactly the candidates that carry a crop and no message, and each voxel of `psf_sum` is that voxel summed over their crops |
| ReadXml.SumCandidates | deconvolve/read_xml.py:376-423 | the candidate loop computes `TallyOf` over the candidates |
| ReadXml.SpotsToPsf | deconvolve/read_xml.py:311-428 | a successful run yields a PSF shape whose components are each 0 or odd, and a sum of exactly that shape |
| ReadXml.Spots2Psf | deconvolve/read_xml.py:311-428 | the method computes `SpotsToPsf`, and the number of measurements never exceeds the number of clusters |
| ReadXml.FixClusterWindow | deconvolve/read_xml.py:362-368 | the three `fix_indices` calls of one cluster compute `ClusterWindow` |
| ReadXml.ClusterWindow | deconvolve/read_xml.py:362-368 | the window a cluster centre contributes: one fixed index pair per axis |
| FileNames.Tail | pycroscopy3D/transformation/transformation.py:23 | `s[1:]` drops the first character, and is empty for an empty string |
| FileNames.TimeOf | pycroscopy3D/transformation/transformation.py:23 | the time of a stack file is `int()` of the last '_' field of the part before the first '.', without its first character; None where `int()` raises |
| FileNames.PathJoin | pycroscopy3D/transformation/transformation.py:25 | `os.path.join(a, b)`: `b` when it is absolute, otherwise `a` and `b` with one '/' between them unless `a` is empty or already ends in '/' |
| FileNames.LastFieldAfter | pycroscopy3D/transformation/transformation.py:23 | `split(c)[-1]` of `p + c + f` is `f` when `f` holds no `c` |
| FileNames.FirstFieldBefore | pycroscopy3D/transformation/transformation.py:23 | `split(c)[0]` of `f + c + q` is `f` when `f` holds no `c` |
| FileNames.KeptTiffs | pycroscopy3D/transformation/transformation.py:22 | a name is kept exactly when it is in the listing and ends in `.tif` or `.tiff` |
| FileNames.Entries | pycroscopy3D/transformation/transformation.py:23 | the timings exist exactly when every name parses (otherwise `int` raises); each entry pairs a name with its time |
| FileNames.Insert | pycroscopy3D/transformation/transformation.py:24 | inserting into time-sorted entries keeps them sorted and adds exactly one entry |
| FileNames.SortByTime | pycroscopy3D/transformation/transformation.py:24 | `argsort` of the timings yields entries sorted by time that are a permutation of the input |
| FileNames.Names | pycroscopy3D/transformation/transformation.py:24 | the names are taken from the entries one for one, in order |
| FileNames.OrderedEntries | pycroscopy3D/transformation/transformation.py:14-26 | the `.tif`/`.tiff` names of the listing with their times, sorted by time; None where a time does not parse |
| FileNames.OrderedTiffs | pycroscopy3D/transformation/transformation.py:14-26 | `get_ordered_tiffs`: each ordered name joined to the data path |
| FileNames.PathJoinBasename | pycroscopy3D/transformation/transformation.py:25 | the base name of `os.path.join(a, b)` is `b` when `b` holds no '/' |
| FileNames.OrderedEntriesSorted | pycroscopy3D/transformation/transformation.py:14-26 | the output is ordered by time, and each entry is a `.tif`/`.tiff` name whose parsed time is the entry's time |
| FileNames.OrderedEntriesPermute | pycroscopy3D/transformation/transformation.py:14-26 | the output is a rearrangement of the kept names with their times; nothing is lost or duplicated |
| FileNames.OrderedTiffsNames | pycroscopy3D/transformation/transformation.py:14-26 | every returned path ends in the name of the entry in the same position |
| FileNames.OrderedNameListed | pycroscopy3D/transformation/transformation.py:14-26 | every ordered entry carries a name of the listing |
| FileNames.TimeOfStackName | pycroscopy3D/transformation/transformation.py:23 | `<stem>_<c><t>.<ext>` parses to time `t` when the stem holds no '.' |
| FileNames.TimeOfOldStackName | pycroscopy/transformation/transformation.py:16 | the older parser reads `<stem>_<c><t>.<ext>` as time `t` for any stem, dots included |
| FileNames.TimeOfOld | pycroscopy/transformation/transformation.py:16 | the older parser: `int()` of the part before the first '.' of the last '_' field, without its first character |
| FileNames.OrderedTiffsOld | pycroscopy/transformation/transformation.py:8-19 | the older `get_ordered_tiffs`: every listed name, sorted by the older time, with the data path prepended without a separator |
| FileNames.DottedStemParsers | pycroscopy/transformation/transformation.py:16 | on `a.b_t5.tif` the older parser finds 5 and the newer one fails |
| FileNames.ProperNamePlaneIsZFill | pycroscopy3D/transformation/transformation.py:201-213 | for `i >= 0` the name is `str(i).zfill(len(str(nPlanes)))`: its length is the larger of the two lengths and it parses back to `i` |
| FileNames.ProperNamePlaneNegative | pycroscopy3D/transformation/transformation.py:201-213 | for a negative index the zeros go before the sign (`-1` gives `0-1`, where `zfill` gives `-01`) |
| FileNames.ProperNamePlane | pycroscopy3D/transformation/transformation.py:201-213 | `properNamePlane(i, nPlanes)`: `str(i)` left-padded with zeros to the length of `str(nPlanes)` |
| FileNames.SplitExtRootOf | local_examples/pipeline_tools.py:24 | `os.path.splitext` returns the root when the extension holds no '.' |
| FileNames.ParseTimeOfStackPath | local_examples/pipeline_tools.py:19-26 | a path `<dir>/<stem>_<c><t>.<ext>` parses to time `t` |
| FileNames.ParseTimeFromStackName | local_examples/pipeline_tools.py:19-26 | the time is `int()` of the last '_' field of the base name's root, without its first character |
| FileNames.StackNameExample | local_examples/pipeline_tools.py:19-32 | the docstring example `220127_F4_run2_t1965.tiff` gives time 1965 and folder `t001965` |
| FileNames.ZFillDigits | local_examples/pipeline_tools.py:32 | `zfill` of a digit string shorter than the width prepends zeros |
| FileNames.TimeFolderParses | local_examples/pipeline_tools.py:29-32 | the output folder `t` + `str(time).zfill(6)` reads back as `time` and has at least 7 characters |
| FileNames.TimeFolder | local_examples/pipeline_tools.py:29-32 | the output folder is `t` followed by `str(time).zfill(6)` |
| FiniteDiff.ForwardRaw | deconvolve/python/tests/dv.py:29-38 | the forward difference along one axis has the length of that axis |
| FiniteDiff.Forward | deconvolve/python/tests/dv.py:24-38 | `dx+` divided by the step keeps the length of the axis |
| FiniteDiff.BackwardRaw | deconvolve/python/tests/dv.py:29-38 | the backward difference along one axis has the length of that axis |
| FiniteDiff.Backward | deconvolve/python/tests/dv.py:24-38 | `dx-` divided by the step keeps the length of the axis |
| FiniteDiff.DiffAt | deconvolve/python/tests/dv.py:29-38 | `dx+[t]` is `(f[t+1] - f[t]) / h` and 0 at the last index; `dx-[t]` is `(f[t] - f[t-1]) / h` and 0 at the first index |
| FiniteDiff.BackwardIsShiftedForward | deconvolve/python/tests/dv.py:38 | the two halves of the one buffer are shifts of each other: `dx-[k] == dx+[k-1]`, with the boundary zeros at opposite ends |
| FiniteDiff.BackwardRawTelescopes | deconvolve/python/tests/dv.py:29-38 | the backward differences sum to `f[last] - f[0]` |
| FiniteDiff.ForwardRawTelescopes | deconvolve/python/tests/dv.py:29-38 | the forward differences sum to `f[last] - f[0]` |
| FiniteDiff.DifferencesTelescope | deconvolve/python/tests/dv.py:24-38 | both scaled difference sequences sum to `(f[last] - f[0]) / h` |
| FiniteDiff.DiffLine | deconvolve/python/tests/dv.py:29-38 | the buffer built by the assignments, `+=` and `-=` yields exactly `Forward` and `Backward`; an empty axis fails on `f[-1]` |
| FiniteDiff.BufferHoldsDiffs | deconvolve/python/tests/dv.py:38 | slicing the buffer `[1:]` and `[:-1]` gives the forward and backward differences |
| FiniteDiff.Grad | deconvolve/python/tests/dv.py:24-62 | `dx`, `dy` and `dz` keep the shape of the stack |
| FiniteDiff.Differences | deconvolve/python/tests/dv.py:24-62 | the differences along an axis fail exactly when that axis is empty |
| FiniteDiff.Line | deconvolve/python/tests/dv.py:24-62 | the line through a voxel along an axis has that axis's length |
| FiniteDiff.GradAlongLines | deconvolve/python/tests/dv.py:24-62 | along every line of the chosen axis, the 3-D difference is the 1-D forward (resp. backward) difference of that line |
| FiniteDiff.Sign | deconvolve/python/tests/dv.py:65 | `np.sign(x)` is zero exactly when `x` is zero |
| FiniteDiff.MinReal | deconvolve/python/tests/dv.py:65 | `np.minimum` returns one of its arguments and is at most both |
| FiniteDiff.MinModAgrees | deconvolve/python/tests/dv.py:64-65 | the Python `m(a, b)` equals the library's `minmod` for every pair of values |
| FiniteDiff.Zip | deconvolve/python/tests/dv.py:78-92 | an element-wise numpy operation applies the operation voxel by voxel and keeps the shape |
| FiniteDiff.Normaliser | deconvolve/python/tests/dv.py:87-89 | `sx`, `sy` and `sz` keep the shape of the stack |
| FiniteDiff.Dv | deconvolve/python/tests/dv.py:67-96 | `dv` fails exactly on an empty axis; otherwise it keeps the shape of the stack |
| FiniteDiff.NormalisedComponentBounded | deconvolve/python/tests/dv.py:87-95 | `np.where(s == 0, 0, f / s)` is 0 where `s` is 0 and always lies in `[-1, 1]` |
| FiniteDiff.ConstantHasZeroDv | deconvolve/python/tests/dv.py:67-96 | a constant stack has `div(grad f / abs(grad f)) == 0` at every voxel |
| FiniteDiff.ZeroBackward | deconvolve/python/tests/dv.py:93-95 | the backward difference of an all-zero stack is zero everywhere |
| ExpandShape.AxisWindow | deconvolve/python/tests/test_convolve.py:124-133 | the `while a < 0` loop of one axis ends with exactly the closed-form window |
| ExpandShape.GrowingAxisCopiesAll | deconvolve/python/tests/test_convolve.py:125-133 | on an axis that grows or stays the same, the whole data axis is copied, starting at `(s1-s2+1)//2` |
| ExpandShape.EvenShrinkCentreCrops | deconvolve/python/tests/test_convolve.py:125-133 | on an axis shrunk by an even amount, the data is centre-cropped to the new length |
| ExpandShape.OddShrinkMismatches | deconvolve/python/tests/test_convolve.py:125-135 | on an axis shrunk by an odd amount, the two slices differ in length by one, so a non-empty axis cannot broadcast |
| ExpandShape.BroadcastFits | deconvolve/python/tests/test_convolve.py:135 | an axis that broadcasts never selects more result entries than data entries |
| ExpandShape.AxisSource | deconvolve/python/tests/test_convolve.py:132-135 | result index `i` takes a data entry exactly when it lies in the assigned slice, and that entry is the slice-aligned one inside the data |
| ExpandShape.Fill | deconvolve/python/tests/test_convolve.py:121-135 | the filled array has the target shape, and every voxel is the matching data voxel or the background |
| ExpandShape.SeqMin | deconvolve/python/tests/test_convolve.py:120 | `data.min()` is at most every entry and is one of them |
| ExpandShape.ExpandToShape | deconvolve/python/tests/test_convolve.py:111-139 | the loops and the slice assignment compute `Expanded`, including the ValueError paths |
| ExpandShape.Expanded | deconvolve/python/tests/test_convolve.py:111-139 | equal shapes return the data; no background and no data fail; otherwise the target shape filled with the data or the background, or a ValueError where the slices do not broadcast |
| ExpandShape.ExpandedShape | deconvolve/python/tests/test_convolve.py:111-139 | equal shapes return the data unchanged; a result has the target shape; voxels outside the assigned slices hold the background, which is `data.min()` when none is given |
| ExpandShape.GrowingEmbedsData | deconvolve/python/tests/test_convolve.py:111-139 | growing every axis embeds the whole data at offset `(s1-s2+1)//2` on each axis |
| ExpandShape.OddShrinkRaises | deconvolve/python/tests/test_convolve.py:124-138 | shrinking an axis by an odd amount to a non-empty length raises the ValueError |
| LambdaCallback.LambdaLog.constructor | deconvolve/python/tests/test_deconvolve.py:105 | the recorded list starts empty |
| LambdaCallback.LambdaLog.Call | deconvolve/python/tests/test_deconvolve.py:106-128 | returns 0 after iteration 100 or when lambda is at or below each of the last three of more than three recorded values, and 1 otherwise; lambda is appended exactly when the answer is 1 |
| LambdaCallback.DefaultDeclineStopsTest | deconvolve/python/tests/test_deconvolve.py:118-125 | every lambda on which the library's default callback would stop (a strict decline) also stops this callback |
| LambdaCallback.TiesStopOnlyHere | deconvolve/python/tests/test_deconvolve.py:118-125 | on ties this callback stops where the default one goes on |
| LambdaCallback.TieIsTheOnlyDifference | deconvolve/python/tests/test_deconvolve.py:113-128 | with more than three values recorded and an iteration both caps allow, this callback stops where the default one (holding the newest three) goes on exactly when lambda equals the smallest of the last three values |
| LambdaCallback.FourthValueNeeded | deconvolve/python/tests/test_deconvolve.py:118 | this callback needs four recorded values before lambda can stop it; the default one needs three |
| LambdaCallback.CapIsOneLater | deconvolve/python/tests/test_deconvolve.py:113-114 | this callback stops after iteration 100, the default one at iteration 100 |
| Noise.PhotonValue | pycroscopy/deconvolution/noise.py:8-13 | a photon count is never negative; it is the rounded `(x - 100) / gain` when that is non-negative, and 0 otherwise |
| Noise.Clamped | pycroscopy/deconvolution/noise.py:12 | `norm_img[norm_img < 0] = 0` keeps the length, zeroes exactly the negative entries and keeps the others |
| Noise.ClampNegatives | pycroscopy/deconvolution/noise.py:12 | the in-place assignment leaves the array equal to `Clamped` of its old contents |
| Noise.PhotonCount | pycroscopy/deconvolution/noise.py:8-13 | a fresh array of the image's length whose every entry is the photon count of the matching pixel; the `offset` argument has no effect |
| Noise.UnitGainCounts | pycroscopy/deconvolution/noise.py:77 | with gain 1 an integer pixel `x` counts `x - 100` photons when `x >= 100`, and 0 otherwise |
| Noise.PhotonValueMonotone | pycroscopy/deconvolution/noise.py:11-12 | with a positive gain, a brighter pixel never counts fewer photons |
| Noise.RoundMonotone | pycroscopy/deconvolution/noise.py:11 | numpy's half-to-even rounding is monotone |
| Noise.Count | pycroscopy/deconvolution/noise.py:23-24 | a bin never holds more pixels than the image has |
| Noise.Min | pycroscopy/deconvolution/noise.py:20 | `img.min()` is at most every pixel |
| Noise.Max | pycroscopy/deconvolution/noise.py:21 | `img.max()` is at least every pixel |
| Noise.MinMaxAttained | pycroscopy/deconvolution/noise.py:20-21 | the minimum and the maximum are pixels of the image |
| Noise.Hist | pycroscopy/deconvolution/noise.py:16-25 | an empty image fails; otherwise there are `max - min` bins and bars, bin `j` is `min + j`, and each bar is the density of its bin; an image of a single value has no bins and no bars, as numpy's histogram over one edge gives |
| Noise.HistInnerBars | pycroscopy/deconvolution/noise.py:22-24 | every bar but the last is the share of the pixels equal to its bin value |
| Noise.HistLastBar | pycroscopy/deconvolution/noise.py:22-24 | the last bar spans `[max - 1, max + 1]`: it counts the pixels at `max - 1` and at `max` over a width of 2 |
| Noise.HistIsDensity | pycroscopy/deconvolution/noise.py:16-25 | `density=True`: the bars times their widths sum to 1 |
| Noise.HistPrefix | pycroscopy/deconvolution/noise.py:22-24 | the masses of the first `j` bars are the share of pixels below `min + j` |
| Noise.CountSplit | pycroscopy/deconvolution/noise.py:23-24 | the counts of adjacent bins add up |
| Noise.CountTotal | pycroscopy/deconvolution/noise.py:22-24 | the bins together count every pixel |
| Noise.PoissonGain | pycroscopy/deconvolution/noise.py:29 | `loss_poisson`'s assertion passes exactly for an integer gain |
| Noise.Candidates | pycroscopy/deconvolution/noise.py:85 | `list(range(*lims))` lists the integers from `lims[0]` up to `lims[1]`, excluding `lims[1]` |
| Noise.ArgMin | pycroscopy/deconvolution/noise.py:86-87 | `np.argmin` returns an index of a smallest loss, the first such index |
| Noise.UnitCounts | pycroscopy/deconvolution/noise.py:77 | the unit-gain photon counts, one non-negative count per pixel |
| Noise.TwoReBins | pycroscopy/deconvolution/noise.py:37-44 | `np.diff(re_bins)[0]` exists exactly when `(bins/gain).astype(int)` takes at least two values |
| Noise.LossPoisson | pycroscopy/deconvolution/noise.py:28-48 | IndexError when the re-binned values collapse to fewer than two, otherwise the scipy loss |
| Noise.EstimateGain | pycroscopy/deconvolution/noise.py:64-89 | histogram of the unit-gain counts, then the optimiser's gain for 'gp', the first gain of least Poisson loss for 'p', an exception otherwise |
| Noise.EstimateGainPoisson | pycroscopy/deconvolution/noise.py:64-89 | with 'p' the estimate succeeds exactly when the range of gains is non-empty and every gain in it keeps two re-binned values; it fails with ValueError on an empty range and IndexError otherwise; a success is an integer gain in the range with the least Poisson loss, the first of any tie |
| Noise.PoissonOutcome | pycroscopy/deconvolution/noise.py:84-87 | the 'p' estimate succeeds exactly when the range is non-empty and every gain keeps two re-binned values; ValueError on an empty range, IndexError otherwise |
| Noise.PoissonChoice | pycroscopy/deconvolution/noise.py:84-87 | a successful 'p' estimate is an integer gain of the range with the least loss, earlier gains having a larger one |
| Noise.NarrowNoiseRaises | pycroscopy/deconvolution/noise.py:37-44 | noise whose largest unit-gain count is at most a positive gain of the range makes the estimate raise IndexError |
| Noise.WideNoiseSucceeds | pycroscopy/deconvolution/noise.py:37-44 | noise whose counts span at least `lims[1]` values, with positive gains, makes the estimate succeed |
| Noise.CollapsedReBins | pycroscopy/deconvolution/noise.py:37-39 | bins in `[0, g)` all re-bin to one value |
| Noise.EstimateGainOther | pycroscopy/deconvolution/noise.py:64-89 | any distribution other than 'gp' and 'p' leaves `gain` unbound (UnboundLocalError); empty noise data fails in `hist` |
| PlaneRanges.CropPlanesSelects | pycroscopy3D/transformation/transformation.py:40-50 | no limits return the stack itself; limits `[lo, hi]` select planes `lo` up to `hi`; a list shorter than two raises IndexError |
| PlaneRanges.CropPlanes | pycroscopy3D/transformation/transformation.py:40-50 | fails exactly for a limit list shorter than two; otherwise a selection of at most as many planes, each taken from the stack |
| PlaneRanges.EmptyLimitsDiffer | pycroscopy/transformation/transformation.py:87-90 | `build_4D_tiff` treats an empty frame limit as no limit, where `crop_planes` raises on it |
| PlaneRanges.SelectFrames | pycroscopy/transformation/transformation.py:87-90 | fails exactly for a one-element frame limit; otherwise a selection of at most as many files, each taken from the listing |
| PlaneRanges.RowSums | pycroscopy3D/transformation/transformation.py:227 | `np.sum(plane, axis=1)` holds one sum per row |
| PlaneRanges.FirstNonZero | pycroscopy3D/transformation/transformation.py:227 | the first index whose sum is non-zero; every earlier sum is zero; None when all are zero |
| PlaneRanges.LastNonZero | pycroscopy3D/transformation/transformation.py:227 | the last index whose sum is non-zero; every later sum is zero; None when all are zero |
| PlaneRanges.FovDropsLastRow | pycroscopy3D/transformation/transformation.py:226-236 | the FOV limits are the first and last non-empty rows, both inclusive; `get_plane_image` then uses the upper limit exclusively, so the last non-empty row is dropped |
| PlaneRanges.MinimalFov | pycroscopy3D/transformation/transformation.py:226-230 | IndexError for a plane index out of range; otherwise success exactly when some row has a non-zero sum, giving the first and last such rows, which bracket every non-zero row |
| PlaneRanges.PlaneImage | pycroscopy3D/transformation/transformation.py:232-236 | fails exactly for a plane index out of range; otherwise at most as many rows as the plane has |
| PlaneRanges.PyRange | pycroscopy3D/transformation/transformation.py:336 | `range(start, stop, step)` lists `start + k*step`, stays strictly on the near side of `stop`, and the next value would pass it |
| PlaneRanges.PyRangeUnitStep | pycroscopy3D/transformation/transformation.py:336 | with step 1 the range has `stop - start` elements (none when `stop <= start`), counting up from `start` |
| PlaneRanges.PlaneIdsIgnoreUpperLimit | pycroscopy3D/transformation/transformation.py:329-336 | the planes written do not depend on `plane_lim[1]`; with limits they run from `plane_lim[0]` to below `nPlanes - 2`; without limits every plane is written |
| PlaneRanges.PlaneIds | pycroscopy3D/transformation/transformation.py:329-336 | `range(start, end, step_plane)` with (0, nPlanes) without limits and (plane_lim[0], nPlanes-2) with them; an empty limit list raises IndexError and step 0 ValueError |
| PlaneRanges.CreatePlanesTiff | pycroscopy3D/transformation/transformation.py:329-344 | one file per selected plane, in plane order, each named `plane_` + the zero-filled index + `.tiff` under the save path; a bad limit list raises; no plane to visit ends in the ValueError of `pd.concat` on an empty dict |
| PlaneRanges.NoPlanesIff | pycroscopy3D/transformation/transformation.py:331-336 | with limits and a positive step no plane is visited exactly when `plane_lim[0] >= nPlanes - 2` |
| PlaneRanges.WritePlanes | pycroscopy3D/transformation/transformation.py:336-342 | the loop writes exactly one file per plane index, in order |
| PlaneRanges.PlaneFilesDistinct | pycroscopy3D/transformation/transformation.py:338-340 | two different non-negative plane indices never write to the same file |
| PlaneRanges.CreatePlanesTiffOldNeverWrites | pycroscopy/transformation/transformation.py:249-258 | the older version never writes a file: with a non-empty plane range, `len(nPlanes)` on an int raises TypeError |
| PlaneRanges.CreatePlanesTiffOld | pycroscopy/transformation/transformation.py:249-258 | the older plane loop: TypeError as soon as there is a plane to visit, nothing written otherwise |
| PlaneRanges.AddStacks | pycroscopy3D/transformation/transformation.py:107 | `stack_sum +=` adds voxel by voxel |
| PlaneRanges.ZeroStack | pycroscopy3D/transformation/transformation.py:98 | `np.zeros` of the stack size holds 0 everywhere |
| PlaneRanges.StackSum | pycroscopy3D/transformation/transformation.py:102-107 | the sum of the stacks has the size of one stack |
| PlaneRanges.StackSumVoxel | pycroscopy3D/transformation/transformation.py:102-107 | each voxel of the sum is the sum of that voxel over all stacks |
| PlaneRanges.StackSumAppend | pycroscopy3D/transformation/transformation.py:102-107 | summing batch by batch gives the same total as summing all at once |
| PlaneRanges.Average | pycroscopy3D/transformation/transformation.py:109 | the mean stack has the size of one stack |
| PlaneRanges.CalcStacksAverage | pycroscopy3D/transformation/transformation.py:81-110 | no paths raise IndexError; chunk size 0 raises ValueError; a negative chunk size gives an all-zero mean; otherwise the result is the truncated voxel-wise mean of all stacks, whatever the chunk size |
| SliceSpec.ParsePart | deconvolve/convert_data.py:48 | an empty part is None; any other part is `int(x)` when it parses, else ValueError |
| SliceSpec.ParseParts | deconvolve/convert_data.py:48 | the list comprehension succeeds exactly when every part parses, and parses them one for one |
| SliceSpec.SliceOf | deconvolve/convert_data.py:48 | `slice(*args)` succeeds for one to three arguments; one argument is the stop; two are start and stop; three add the step |
| SliceSpec.SingleNumberIsStop | deconvolve/convert_data.py:48 | a field without ':' holding a number `n` becomes `slice(None, n, None)` |
| SliceSpec.ParseSliceSpec | deconvolve/convert_data.py:44-49 | the loop over the fields computes `SliceSpecOf` |
| SliceSpec.SliceSpecOf | deconvolve/convert_data.py:44-49 | the three slices a `--slice` spec denotes, starting from three whole-axis slices |
| SliceSpec.ApplyFields | deconvolve/convert_data.py:45-48 | the loop from field `i` succeeds exactly when there are at most three fields and each parses; field `a` then replaces axis `a`, and later axes keep `slice(None)` |
| SliceSpec.SliceSpecAxes | deconvolve/convert_data.py:44-49 | a spec gives three slices exactly when it has at most three fields and each parses; missing fields leave their axes whole |
| SliceSpec.TooManyFields | deconvolve/convert_data.py:47-48 | a fourth field that parses raises IndexError on `slc[3]` |
| SliceSpec.EmptySpecKeepsAll | deconvolve/convert_data.py:44-49 | the empty spec keeps every axis whole |
| SliceSpec.ThreeFields | deconvolve/convert_data.py:46-47 | a spec `x,y,z` without brackets or commas inside splits into exactly its three fields |
| SliceSpec.TwoParts | deconvolve/convert_data.py:48 | `x:y` becomes `slice(int(x), int(y))`, an empty part giving None |
| SliceSpec.DataSourceChecks | deconvolve/convert_data.py:14-39 | Phenix input needs both field and channel (ValueError otherwise) and keeps them; a file that is not `.h5` raises NotImplementedError; the Sysbio channel name is given exactly when a channel number is given |
| SliceSpec.DataSource | deconvolve/convert_data.py:14-39 | Phenix input with its field and channel, an `.h5` file with its optional channel name, NotImplementedError otherwise |
| PyNum.Trunc | pycroscopy3D/transformation/transformation.py:109 | `astype` to an integer type and `int()` truncate towards zero: downwards for non-negative values, upwards for negative ones |
| PyNum.RoundHalfEven | pycroscopy/deconvolution/noise.py:11 | `np.round` lies within 0.5 of its argument and picks the even integer on a tie |
| PyNum.RoundHalfEvenUnique | pycroscopy/deconvolution/noise.py:11 | these two properties determine `np.round` uniquely |
| PySlice.Bound | pycroscopy3D/transformation/transformation.py:48 | a slice bound is clipped into `[0, n]`, a negative bound counting from the end |
| PySlice.Len | pycroscopy3D/transformation/transformation.py:48 | a step-1 slice selects `hi - lo` elements when that is positive and none otherwise, never more than the sequence holds |
| PySlice.Slice | pycroscopy3D/transformation/transformation.py:48 | `s[lo:hi]` has the slice's length, and element `i` is `s[lo + i]` |
| PySlice.SliceInRange | pycroscopy3D/transformation/transformation.py:48 | for bounds inside the sequence, Python slicing is ordinary sub-sequence selection |
| PySlice.Index | pycroscopy3D/transformation/transformation.py:234 | `a[i]` is defined exactly for `-n <= i < n`, a negative index counting from the end; otherwise IndexError |
| NdArray.Crop | deconvolve/read_xml.py:404 | `v[r0, r1, r2]` has the three slice lengths, and voxel `(i, j, k)` is the source voxel at the slice starts plus `(i, j, k)` |
| PyStr.Str | pycroscopy3D/transformation/transformation.py:338 | `str(i)` is non-empty and all digits, after a '-' for a negative `i` |
| PyStr.NatStr | pycroscopy3D/transformation/transformation.py:338 | `str(n)` of a natural number is all digits, has no leading zero and reads back as `n` |
| PyStr.ParseIntStr | local_examples/pipeline_tools.py:25 | `int(str(i)) == i` |
| PyStr.ParseInt | local_examples/pipeline_tools.py:25 | `int(s)`: surrounding whitespace, an optional sign, then decimal digits; None where `int()` raises on ASCII input |
| PyStr.ParseIntDigits | local_examples/pipeline_tools.py:25 | `int()` of a digit string is its decimal value |
| PyStr.Strip | deconvolve/convert_data.py:46 | `strip('[]')` never lengthens the string and leaves neither end in the stripped set |
| PyStr.StripNothing | deconvolve/convert_data.py:46 | a string without the stripped characters is left as it is |
| PyStr.Split | deconvolve/convert_data.py:47 | `s.split(c)` has at least one part, no part holds `c`, and joining the parts with `c` gives `s` back |
| PyStr.Join | deconvolve/convert_data.py:47 | `c.join(parts)`, the inverse of `split(c)` that `PyStr.Split` is proved against |
| PyStr.FirstField | pycroscopy3D/transformation/transformation.py:23 | `s.split(c)[0]` is the prefix of `s` up to the first `c` |
| PyStr.LastField | pycroscopy3D/transformation/transformation.py:23 | `s.split(c)[-1]` is the suffix of `s` after the last `c` |
| PyStr.Basename | local_examples/pipeline_tools.py:24 | `os.path.basename` is the suffix after the last '/' |
| PyStr.SplitExtRoot | local_examples/pipeline_tools.py:24 | `os.path.splitext` returns a prefix that is either the whole name or ends before a last '.' |
| PyStr.ZFill | pycroscopy3D/transformation/transformation.py:338 | `zfill(width)` leaves a string of at least `width` characters as it is and pads a shorter one to exactly `width` |
| PyStr.ZFillParse | pycroscopy3D/transformation/transformation.py:338 | a zero-filled `str(i)` reads back as `i` |

## Code versus documentation

Where the code and its comments or documentation disagree, the model
follows the code. A lemma states each difference:

- `Images.Nrm2IsSquared`: `Image::nrm2` returns a sum of squared differences. It takes no square root, although the callback documentation calls it the Euclidean norm of the change.
- `DeconvolvePriv.ArgsMeaning`: `nrm2_prevprev` stays 0 until iteration number 3. The public header says it is filled from iteration 2.
- `PsfOtf.OwnGridCopies` and `PsfOtf.NegativeFractionPasses`: the bounds test of `PSF::otf` rejects the last sample plane of every axis, so resampling a PSF onto its own grid zeroes that plane. Truncation toward zero lets an index in (−1, 0) through with a negative fraction.
- `BeadPsf.ZeroToleranceRejectsAll`: the docstring says a size tolerance of 0 keeps only boxes of exactly the expected size. The strict comparison keeps none.
- `LambdaCallback.TiesStopOnlyHere`, `LambdaCallback.FourthValueNeeded`, `LambdaCallback.CapIsOneLater`: the test callback mirrors the library's default rule with three differences:
  - it stops on ties;
  - it needs four recorded values;
  - it stops one iteration later.
- `PlaneRanges.FovDropsLastRow`: `get_minimal_fov` returns inclusive limits and `get_plane_image` uses the upper one as an exclusive bound, so the last non-empty row is lost.
- `PlaneRanges.PlaneIdsIgnoreUpperLimit`: `create_planes_tiff` ignores `plane_lim[1]` and always stops below `nPlanes - 2`.
- `PlaneRanges.CreatePlanesTiffOldNeverWrites`: the older `create_planes_tiff` calls `len` on an int and raises TypeError before writing its first plane.
- `FileNames.DottedStemParsers`: the two versions of `get_ordered_tiffs` parse names with a '.' in the stem differently.
- `FileNames.ProperNamePlaneNegative`: `properNamePlane` of a negative index puts the zeros before the sign.
- `Noise.PhotonCount`: `photon_count` always subtracts 100, whatever its `offset` argument.
- `Noise.HistLastBar`: the last bar of `hist` spans two values, because numpy's last bin is closed.
- `ExtractPsf.DiscardedExactly`: candidates rejected by the grid-distance gate are skipped but are not added to `discarded_labels`, so their labels stay in the label map.

## Left out

- The FFTs are not modelled: the forward and inverse transforms and the convolution with the OTF. In `DeconvolvePriv` the convolutions are function parameters; in `PsfOtf` the model stops at the image the FFT is applied to.
- `div_unit_grad`, `snr`, `lambda_lsq` and `prod_regularized` are floating-point voxel loops (`hypot3`, `sqrt`, `pow`). They are not modelled and are function parameters of `DeconvolvePriv`.
- scipy, cc3d and numpy measurements are function parameters or given values:
  - Gaussian blur, labelling, `find_objects` and centres of mass;
  - `argmax`, percentiles and interpolation (`zoom`);
  - `find_clusters`, `convolve` and `maximum_position`;
  - the scipy distributions and the Nelder-Mead minimiser of `estimate_gain`;
  - the square root (`FiniteDiff`, `ExtractPsf`).
- Values are mathematical reals and integers. IEEE rounding, overflow, NaN and infinities are not modelled.
  - Where numpy would yield inf or NaN instead of raising, the model returns a `Failure`: a zero maximum in `ExtractPsf`, a zero count in its average, a zero PSF sum in `PsfOtf`, and a zero SNR or lambda in `DeconvolvePriv`.
  - A PSF voxel size of 0 makes `get_ind` divide by zero before the `(int)` cast. `PsfOtf.Resampling.Ok`, `DeconvolveApi.Deconvolve.Convolve` and `DeconvolveApi.Deconvolve.Deconvolve` require non-zero PSF voxel sizes instead.
  - Integer dtype casts and wrap-around are not modelled: the `uint16` cast of `calc_stacks_average` and the integer `psf_sum` of `spots2psf`. `expand_to_shape`'s `dtype` argument is ignored.
- DeconvolvePriv.Run: the deconvolution loop carries a fuel bound, because a user callback may continue forever. Running out of fuel is an explicit `OutOfFuel` outcome, not a behaviour of the source.
- OpenMP parallel loops are modelled as sequential loops; their iterations are independent.
- Printing, progress bars, logging, plotting and file output are not modelled:
  - TIFF, HDF5 and VTK writing;
  - `save2hdf5`, `psf_fig`, `PhenixData`;
  - the command-line front ends.
- Directory listings are parameters. The model does not read the file system.
- `lateral_resolution`, `axial_resolution`, `asymetry` and the `curve_fit` fits in `_pycroscopy/psf/psf.py` are not modelled. They are floating-point measurements of the finished PSF.
- `normalize` and `normalize_uint8` are not modelled. In `spots2psf` the normalised copy is only drawn on, and the model keeps the raw candidate that is summed.
- The callback overloads of the C++ API are modelled as one callback over the argument record. `user_data` is carried as a number.
- numpy's `argsort` is not stable by default. `FileNames.SortByTime` fixes one order for equal times.
- `get_image_specs` and the `y_lim` it computes are not modelled. `get_plane_image` takes `y_lim` as given.
- `create_single_plane_tiff` is not modelled. The plane files are modelled as the names written, one per plane.
- Code that cannot run as written is not modelled:
  - the `chunk_size` use in `convert_to_4D_stacks` (pycroscopy3D/transformation/transformation.py:115);
  - `average_psf` (_pycroscopy/psf/psf.py:312);
  - `get_one_cropped_psf` (_pycroscopy/psf/psf.py:118-120);
  - the top-level `append_dict` (deconvolve/read_xml.py:45-50).
- BeadPsf.PsfGenerator.constructor: requires a non-empty stack. On an empty stack `threshold` takes the `max()` of nothing and raises ValueError; a Dafny constructor cannot fail, so that case is not modelled.
- A gain of 0 in `lims` of `estimate_gain` divides every bin by zero; numpy gives inf or NaN, which the integer cast maps to one value on common platforms. The model fixes that value, so such a gain always collapses the re-binning.
- PyStr.ParseInt: only ASCII digits and ASCII whitespace are modelled. Python's `int()` also strips other Unicode whitespace and accepts any Unicode decimal digit (`int("\u0663") == 3`); the model returns None for those strings, and so do `FileNames.TimeOf`, `FileNames.TimeOfOld`, `FileNames.ParseTimeFromStackName` and `SliceSpec.ParsePart`, which use it.
- Noise.PhotonCount: requires a non-zero gain. With gain 0 numpy divides to inf or NaN, and the integer cast is undefined.
- PlaneRanges.CalcStacksAverage: requires all stacks to have the same size. numpy would broadcast or raise on stacks of different shapes.
- The concrete example `"1:4,500:-200,:"` in the `--slice` help text is not evaluated. `SliceSpec.ThreeFields`, `SliceSpec.TwoParts` and `SliceSpec.SliceSpecAxes` cover specs of that form.
- ReadXml.RoundHalfAway: Python 2's `round` is modelled on exact reals. Binary floating-point ties are not modelled.
