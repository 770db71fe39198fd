/** Plane and frame selection of the time-lapse transformations:
    `crop_planes`, `get_minimal_fov`/`get_plane_image`, the plane loop of
    `create_planes_tiff` and the batched sum of `calc_stacks_average` in
    `pycroscopy3D/transformation/transformation.py`, and their older
    counterparts (with `build_4D_tiff`) in
    `pycroscopy/transformation/transformation.py`. A stack is a sequence
    of planes; the TIFF reads and writes are not modelled. */
module PlaneRanges {
  import opened Wrappers
  import opened PyNum
  import opened PySlice
  import opened PyStr
  import opened FileNames

  /** The exceptions of these helpers. */
  datatype PlaneError =
    | IndexError    // a limit list too short, an empty path list, an empty field of view
    | TypeError     // `len()` of an int
    | ValueError    // `range()` with step 0, `pd.concat` of no crop tables

  /** A `plane_lim`/`frame_lim` argument: None, or a list of ints. */
  type Limits = Option<seq<int>>

  // ------------------------------------------------------------ crop_planes

  /** `crop_planes(array, plane_lim)`: the whole stack for None, else
      `array[plane_lim[0]:plane_lim[1]]`. */
  function CropPlanes<T>(planes: seq<T>, planeLim: Limits): (r: Result<seq<T>, PlaneError>)
    ensures r.Failure? <==> planeLim.Some? && |planeLim.value| < 2
    ensures r.Success? ==> |r.value| <= |planes| && forall i :: 0 <= i < |r.value| ==> r.value[i] in planes
  {
    match planeLim
    case None => Success(planes)
    case Some(l) =>
      if |l| < 2 then Failure(IndexError)
      else Success(Slice(planes, Range(Some(l[0]), Some(l[1]))))
  }

  /** Limits inside the stack select exactly planes lo..hi-1; None selects
      all; a list of fewer than two limits raises. */
  lemma CropPlanesSelects<T>(planes: seq<T>, lo: int, hi: int)
    ensures CropPlanes(planes, None) == Success(planes)
    ensures 0 <= lo <= hi <= |planes| ==> CropPlanes(planes, Some([lo, hi])) == Success(planes[lo..hi])
    ensures CropPlanes(planes, Some([lo])).Failure? && CropPlanes(planes, Some([])).Failure?
  {
    if 0 <= lo <= hi <= |planes| {
      SliceInRange(planes, lo, hi);
    }
  }

  /** `build_4D_tiff`'s frame selection: every file for a falsy `frame_lim`
      (None or empty), else the `[lo:hi]` sub-list. */
  function SelectFrames<T>(files: seq<T>, frameLim: Limits): (r: Result<seq<T>, PlaneError>)
    ensures r.Failure? <==> frameLim.Some? && |frameLim.value| == 1
    ensures r.Success? ==> |r.value| <= |files| && forall i :: 0 <= i < |r.value| ==> r.value[i] in files
  {
    if frameLim.None? || |frameLim.value| == 0 then Success(files)
    else if |frameLim.value| < 2 then Failure(IndexError)
    else Success(Slice(files, Range(Some(frameLim.value[0]), Some(frameLim.value[1]))))
  }

  /** An empty `frame_lim` list loads every file, whereas an empty
      `plane_lim` list makes `crop_planes` raise. */
  lemma EmptyLimitsDiffer<T>(files: seq<T>)
    ensures SelectFrames(files, Some([])) == Success(files)
    ensures CropPlanes(files, Some([])) == Failure(IndexError)
    ensures forall lo, hi :: 0 <= lo <= hi <= |files| ==> SelectFrames(files, Some([lo, hi])) == Success(files[lo..hi])
  {
    forall lo, hi | 0 <= lo <= hi <= |files|
      ensures SelectFrames(files, Some([lo, hi])) == Success(files[lo..hi])
    {
      SliceInRange(files, lo, hi);
    }
  }

  // ------------------------------------------------------- field of view

  /** `np.sum(plane, axis=1)`: the sum of every row. */
  function RowSums(plane: seq<seq<real>>): (s: seq<real>)
    ensures |s| == |plane| && forall i :: 0 <= i < |plane| ==> s[i] == Sum(plane[i])
  {
    seq(|plane|, i requires 0 <= i < |plane| => Sum(plane[i]))
  }

  /** `np.where(s != 0)[0][0]`: the first non-zero index, if any. */
  function FirstNonZero(s: seq<real>): (r: Option<nat>)
    ensures r.Some? ==> r.value < |s| && s[r.value] != 0.0 && forall i :: 0 <= i < r.value ==> s[i] == 0.0
    ensures r.None? ==> forall i :: 0 <= i < |s| ==> s[i] == 0.0
  {
    if |s| == 0 then None
    else if s[0] != 0.0 then Some(0)
    else
      match FirstNonZero(s[1..])
      case None => None
      case Some(k) => Some(k + 1)
  }

  /** `np.where(s != 0)[0][-1]`: the last non-zero index, if any. */
  function LastNonZero(s: seq<real>): (r: Option<nat>)
    ensures r.Some? ==> r.value < |s| && s[r.value] != 0.0 && forall i :: r.value < i < |s| ==> s[i] == 0.0
    ensures r.None? ==> forall i :: 0 <= i < |s| ==> s[i] == 0.0
  {
    if |s| == 0 then None
    else if s[|s| - 1] != 0.0 then Some(|s| - 1)
    else LastNonZero(s[..|s| - 1])
  }

  /** `get_minimal_fov(plane_id, ref_stack)`: the first and the last row of
      the plane whose sum is non-zero (both inclusive); IndexError for a
      plane index out of range or an all-zero plane. */
  function MinimalFov(refStack: seq<seq<seq<real>>>, planeId: int): (r: Result<(nat, nat), PlaneError>)
    ensures Index(planeId, |refStack|).None? ==> r == Failure(IndexError)
    ensures Index(planeId, |refStack|).Some? ==>
              var plane := refStack[Index(planeId, |refStack|).value];
              (r.Success? <==> exists i :: 0 <= i < |plane| && Sum(plane[i]) != 0.0) &&
              (r.Success? ==> r.value.0 <= r.value.1 < |plane| &&
                              Sum(plane[r.value.0]) != 0.0 && Sum(plane[r.value.1]) != 0.0 &&
                              forall i :: 0 <= i < |plane| && Sum(plane[i]) != 0.0 ==> r.value.0 <= i <= r.value.1)
  {
    match Index(planeId, |refStack|)
    case None => Failure(IndexError)
    case Some(p) =>
      var sums := RowSums(refStack[p]);
      match FirstNonZero(sums)
      case None => Failure(IndexError)
      case Some(x0) => Success((x0, LastNonZero(sums).value))
  }

  /** `get_plane_image(array, plane_id, x_lim, y_lim)`:
      `array[plane_id, x0:x1, y0:y1]`. */
  function PlaneImage(stack: seq<seq<seq<real>>>, planeId: int, xLim: (int, int), yLim: (int, int)): (r: Result<seq<seq<real>>, PlaneError>)
    ensures r.Failure? <==> !(-|stack| <= planeId < |stack|)
    ensures r.Success? ==> |r.value| <= |stack[Index(planeId, |stack|).value]|
  {
    match Index(planeId, |stack|)
    case None => Failure(IndexError)
    case Some(p) =>
      var rows := Slice(stack[p], Range(Some(xLim.0), Some(xLim.1)));
      Success(seq(|rows|, r requires 0 <= r < |rows| => Slice(rows[r], Range(Some(yLim.0), Some(yLim.1)))))
  }

  /** The field of view brackets every non-zero row, but the image cut with
      it stops one row short: rows x0..x1-1 are kept and the last non-zero
      row x1 is dropped. */
  lemma FovDropsLastRow(refStack: seq<seq<seq<real>>>, planeId: int, yLim: (int, int))
    requires MinimalFov(refStack, planeId).Success?
    ensures var p := Index(planeId, |refStack|).value;
            var (x0, x1) := MinimalFov(refStack, planeId).value;
            x0 <= x1 < |refStack[p]| &&
            Sum(refStack[p][x0]) != 0.0 && Sum(refStack[p][x1]) != 0.0 &&
            (forall i :: 0 <= i < |refStack[p]| && (i < x0 || i > x1) ==> Sum(refStack[p][i]) == 0.0)
    ensures var p := Index(planeId, |refStack|).value;
            var (x0, x1) := MinimalFov(refStack, planeId).value;
            var img := PlaneImage(refStack, planeId, (x0, x1), yLim);
            img.Success? && |img.value| == x1 - x0 &&
            forall r :: 0 <= r < x1 - x0 ==> img.value[r] == Slice(refStack[p][x0 + r], Range(Some(yLim.0), Some(yLim.1)))
  {
    var p := Index(planeId, |refStack|).value;
    var sums := RowSums(refStack[p]);
    var (x0, x1) := MinimalFov(refStack, planeId).value;
    assert LastNonZero(sums).Some?;
    SliceInRange(refStack[p], x0, x1);
  }

  // -------------------------------------------------------- plane loops

  /** `range(start, stop, step)` for a non-zero step: the values
      start + k * step, for k = 0, 1, ..., that lie before stop. */
  function PyRange(start: int, stop: int, step: int): (r: seq<int>)
    requires step != 0
    ensures forall k :: 0 <= k < |r| ==> r[k] == start + k * step
    ensures forall k :: 0 <= k < |r| ==> if step > 0 then start <= r[k] < stop else stop < r[k] <= start
    ensures var next := start + |r| * step;
            if step > 0 then next >= stop else next <= stop
    decreases if step > 0 then stop - start else start - stop
  {
    if (step > 0 && start >= stop) || (step < 0 && start <= stop) then []
    else
      var rest := PyRange(start + step, stop, step);
      forall k | 0 <= k <= |rest| {
        MulSucc(k, step);
      }
      [start] + rest
  }

  lemma MulSucc(k: int, step: int)
    ensures (k + 1) * step == k * step + step
  {
  }

  /** A unit step visits every value from start up to stop - 1. */
  lemma PyRangeUnitStep(start: int, stop: int)
    ensures |PyRange(start, stop, 1)| == if stop > start then stop - start else 0
    ensures forall k :: 0 <= k < |PyRange(start, stop, 1)| ==> PyRange(start, stop, 1)[k] == start + k
  {
    var r := PyRange(start, stop, 1);
    if |r| > 0 {
      assert r[|r| - 1] < stop;
    }
  }

  /** The planes `create_planes_tiff` visits in `pycroscopy3D`:
      `range(start, end, step_plane)` with (0, nPlanes) for no limits and
      (plane_lim[0], nPlanes-2) otherwise. */
  function PlaneIds(nPlanes: int, planeLim: Limits, step: int): Result<seq<int>, PlaneError>
  {
    if planeLim.Some? && |planeLim.value| == 0 then Failure(IndexError)
    else if step == 0 then Failure(ValueError)
    else
      var (start, end) := if planeLim.None? then (0, nPlanes) else (planeLim.value[0], nPlanes - 2);
      Success(PyRange(start, end, step))
  }

  /** With limits, the visited planes start at plane_lim[0] and stay below
      nPlanes-2 whatever plane_lim[1] is; without, they start at 0 and stay
      below nPlanes. */
  lemma PlaneIdsIgnoreUpperLimit(nPlanes: int, lo: int, hi: int, hi': int, step: int)
    requires step > 0
    ensures PlaneIds(nPlanes, Some([lo, hi]), step) == PlaneIds(nPlanes, Some([lo, hi']), step)
    ensures var ids := PlaneIds(nPlanes, Some([lo, hi]), step).value;
            (forall k :: 0 <= k < |ids| ==> lo <= ids[k] < nPlanes - 2) &&
            (lo < nPlanes - 2 ==> |ids| > 0 && ids[0] == lo)
    ensures var all := PlaneIds(nPlanes, None, 1).value;
            |all| == (if nPlanes > 0 then nPlanes else 0) && forall k :: 0 <= k < |all| ==> all[k] == k
  {
    PyRangeUnitStep(0, nPlanes);
  }

  /** With a positive step and limits, no plane is visited exactly when
      plane_lim[0] is at or beyond nPlanes-2: then `create_planes_tiff` ends in
      the ValueError of `pd.concat`. */
  lemma NoPlanesIff(nPlanes: int, lo: int, hi: int, step: int)
    requires step > 0
    ensures PlaneIds(nPlanes, Some([lo, hi]), step).value == [] <==> lo >= nPlanes - 2
  {
    var ids := PlaneIds(nPlanes, Some([lo, hi]), step).value;
    if lo < nPlanes - 2 {
      PlaneIdsIgnoreUpperLimit(nPlanes, lo, hi, hi, step);
    }
  }

  /** The file one plane is saved to: `savePath/plane_<id zero-filled to
      len(str(nPlanes))>.tiff`. */
  function PlaneFile(savePath: string, planeId: int, nPlanes: int): string
  {
    PathJoin(savePath, "plane_" + ZFill(Str(planeId), |Str(nPlanes)|) + ".tiff")
  }

  /** The plane loop of `create_planes_tiff` in `pycroscopy3D`: the files
      written, in visiting order. With no plane to visit the crop table is
      empty and `pd.concat` raises ValueError after the loop. */
  method CreatePlanesTiff(savePath: string, nPlanes: int, planeLim: Limits, step: int) returns (r: Result<seq<string>, PlaneError>)
    ensures PlaneIds(nPlanes, planeLim, step).Failure? ==> r == Failure(PlaneIds(nPlanes, planeLim, step).error)
    ensures PlaneIds(nPlanes, planeLim, step).Success? && PlaneIds(nPlanes, planeLim, step).value == [] ==>
              r == Failure(ValueError)
    ensures PlaneIds(nPlanes, planeLim, step).Success? && PlaneIds(nPlanes, planeLim, step).value != [] ==>
              var ids := PlaneIds(nPlanes, planeLim, step).value;
              r.Success? && |r.value| == |ids| &&
              forall k :: 0 <= k < |ids| ==> r.value[k] == PlaneFile(savePath, ids[k], nPlanes)
  {
    var plan := PlaneIds(nPlanes, planeLim, step);
    if plan.Failure? {
      return Failure(plan.error);
    }
    if plan.value == [] {
      return Failure(ValueError);
    }
    var written := WritePlanes(savePath, plan.value, nPlanes);
    r := Success(written);
  }

  /** The body of the plane loop, over the planes to visit. */
  method WritePlanes(savePath: string, ids: seq<int>, nPlanes: int) returns (written: seq<string>)
    ensures |written| == |ids|
    ensures forall k :: 0 <= k < |ids| ==> written[k] == PlaneFile(savePath, ids[k], nPlanes)
  {
    written := [];
    for k := 0 to |ids|
      invariant |written| == k
      invariant forall q :: 0 <= q < k ==> written[q] == PlaneFile(savePath, ids[q], nPlanes)
    {
      var planeName := ZFill(Str(ids[k]), |Str(nPlanes)|);
      var fname := PathJoin(savePath, "plane_" + planeName + ".tiff");
      assert fname == PlaneFile(savePath, ids[k], nPlanes);
      written := written + [fname];
    }
  }

  /** Distinct non-negative planes are written to distinct files. */
  lemma PlaneFilesDistinct(savePath: string, i: int, j: int, nPlanes: int)
    requires 0 <= i && 0 <= j && i != j
    ensures PlaneFile(savePath, i, nPlanes) != PlaneFile(savePath, j, nPlanes)
  {
    var w := |Str(nPlanes)|;
    var a, b := ZFill(Str(i), w), ZFill(Str(j), w);
    ZFillParse(i, w);
    ZFillParse(j, w);
    NoSlashInZFill(i, w);
    NoSlashInZFill(j, w);
    PlaneNamesDiffer(a, b);
    PathJoinBasename(savePath, "plane_" + a + ".tiff");
    PathJoinBasename(savePath, "plane_" + b + ".tiff");
  }

  lemma PlaneNamesDiffer(a: string, b: string)
    requires a != b
    ensures "plane_" + a + ".tiff" != "plane_" + b + ".tiff"
  {
    var na, nb := "plane_" + a + ".tiff", "plane_" + b + ".tiff";
    if |a| == |b| {
      var k :| 0 <= k < |a| && a[k] != b[k];
      assert na[6 + k] == a[k] && nb[6 + k] == b[k];
    } else {
      assert |na| != |nb|;
    }
  }

  lemma NoSlashInZFill(i: int, w: int)
    requires i >= 0
    ensures '/' !in "plane_" + ZFill(Str(i), w) + ".tiff"
  {
    var z := ZFill(Str(i), w);
    assert forall k :: 0 <= k < |z| ==> z[k] != '/' by {
      if |Str(i)| < w {
        assert z == Zeros(w - |Str(i)|) + Str(i);
      }
    }
  }

  /** The planes the older `create_planes_tiff` visits: (0, nPlanes) for a
      falsy `plane_lim`, else (plane_lim[0], nPlanes-2). */
  function PlaneIdsOld(nPlanes: int, planeLim: Limits, step: int): Result<seq<int>, PlaneError>
  {
    if step == 0 then Failure(ValueError)
    else
      var (start, end) := if planeLim.None? || |planeLim.value| == 0 then (0, nPlanes) else (planeLim.value[0], nPlanes - 2);
      Success(PyRange(start, end, step))
  }

  /** The older plane loop: its first iteration applies `len()` to the int
      nPlanes, so it raises TypeError as soon as there is a plane to visit
      and writes nothing otherwise. */
  function CreatePlanesTiffOld(nPlanes: int, planeLim: Limits, step: int): Result<seq<string>, PlaneError>
  {
    match PlaneIdsOld(nPlanes, planeLim, step)
    case Failure(e) => Failure(e)
    case Success(ids) => if |ids| > 0 then Failure(TypeError) else Success([])
  }

  /** The older loop never writes a plane: any stack with a plane in range
      makes it raise. */
  lemma CreatePlanesTiffOldNeverWrites(nPlanes: int, planeLim: Limits, step: int)
    ensures CreatePlanesTiffOld(nPlanes, planeLim, step).Success? ==> CreatePlanesTiffOld(nPlanes, planeLim, step).value == []
    ensures step > 0 && nPlanes > 0 && planeLim.None? ==> CreatePlanesTiffOld(nPlanes, planeLim, step) == Failure(TypeError)
  {
    if step > 0 && nPlanes > 0 && planeLim.None? {
      assert 0 in PlaneIdsOld(nPlanes, planeLim, step).value;
    }
  }

  // ----------------------------------------------- calc_stacks_average

  /** Voxel-wise sum of two flattened stacks. */
  function AddStacks(a: seq<real>, b: seq<real>): (c: seq<real>)
    requires |a| == |b|
    ensures |c| == |a| && forall v :: 0 <= v < |a| ==> c[v] == a[v] + b[v]
  {
    seq(|a|, v requires 0 <= v < |a| => a[v] + b[v])
  }

  /** A flattened stack of m zeros. */
  function ZeroStack(m: nat): (z: seq<real>)
    ensures |z| == m && forall v :: 0 <= v < m ==> z[v] == 0.0
  {
    seq(m, _ => 0.0)
  }

  predicate AllSized(stacks: seq<seq<real>>, m: nat)
  {
    forall k :: 0 <= k < |stacks| ==> |stacks[k]| == m
  }

  /** Voxel-wise sum of stacks, in order. */
  function StackSum(stacks: seq<seq<real>>, m: nat): (s: seq<real>)
    requires AllSized(stacks, m)
    ensures |s| == m
  {
    if |stacks| == 0 then ZeroStack(m)
    else AddStacks(StackSum(stacks[..|stacks| - 1], m), stacks[|stacks| - 1])
  }

  /** Voxel v of the summed stacks is the sum of voxel v over all stacks,
      each stack counted once. */
  lemma {:induction false} StackSumVoxel(stacks: seq<seq<real>>, m: nat, v: nat)
    requires AllSized(stacks, m) && v < m
    ensures StackSum(stacks, m)[v] == Sum(seq(|stacks|, k requires 0 <= k < |stacks| => stacks[k][v]))
    decreases |stacks|
  {
    var col := seq(|stacks|, k requires 0 <= k < |stacks| => stacks[k][v]);
    if |stacks| > 0 {
      var init := stacks[..|stacks| - 1];
      StackSumVoxel(init, m, v);
      assert col[..|col| - 1] == seq(|init|, k requires 0 <= k < |init| => init[k][v]);
    }
  }

  /** Summing batch by batch gives the sum of all stacks. */
  lemma {:induction false} StackSumAppend(a: seq<seq<real>>, b: seq<seq<real>>, m: nat)
    requires AllSized(a, m) && AllSized(b, m)
    ensures AllSized(a + b, m)
    ensures StackSum(a + b, m) == AddStacks(StackSum(a, m), StackSum(b, m))
    decreases |b|
  {
    if |b| == 0 {
      assert a + b == a;
    } else {
      var b' := b[..|b| - 1];
      assert (a + b)[..|a + b| - 1] == a + b';
      StackSumAppend(a, b', m);
    }
  }

  /** The mean image of `calc_stacks_average`: the summed stacks divided by
      the number of paths, cast to an integer type (truncation). */
  function Average(stacks: seq<seq<real>>, m: nat): (mean: seq<int>)
    requires AllSized(stacks, m) && |stacks| > 0
    ensures |mean| == m
  {
    var total := StackSum(stacks, m);
    seq(m, v requires 0 <= v < m => Trunc(total[v] / (|stacks| as real)))
  }

  /** The mean image of an empty sum. */
  function ZeroMean(m: nat): (z: seq<int>)
    ensures |z| == m && forall v :: 0 <= v < m ==> z[v] == 0
  {
    seq(m, _ => 0)
  }

  /** `calc_stacks_average(paths, chunk_size)` on the stacks the paths hold:
      batches `paths[i:i+chunk]` for i in `range(0, len(paths), chunk)`,
      each summed and added to the running total, which is finally divided
      by `len(paths)`. `cpus` is `cpu_count()`, used when no chunk size is
      given. */
  method CalcStacksAverage(stacks: seq<seq<real>>, m: nat, chunkSize: Option<int>, cpus: nat) returns (r: Result<seq<int>, PlaneError>)
    requires AllSized(stacks, m) && cpus > 0
    ensures |stacks| == 0 ==> r == Failure(IndexError)
    ensures |stacks| > 0 && chunkSize == Some(0) ==> r == Failure(ValueError)
    ensures |stacks| > 0 && chunkSize.Some? && chunkSize.value < 0 ==> r == Success(ZeroMean(m))
    ensures |stacks| > 0 && (chunkSize.None? || chunkSize.value > 0) ==> r == Success(Average(stacks, m))
  {
    var chunk: int := if chunkSize.None? then cpus else chunkSize.value;
    if |stacks| == 0 {
      return Failure(IndexError);
    }
    if chunk == 0 {
      return Failure(ValueError);
    }
    if chunk < 0 {
      // range() with a negative step from 0 up to len(paths) visits nothing
      var zero := ZeroStack(m);
      assert forall v :: 0 <= v < m ==> zero[v] / (|stacks| as real) == 0.0;
      var mean := seq(m, v requires 0 <= v < m => Trunc(zero[v] / (|stacks| as real)));
      assert mean == ZeroMean(m);
      return Success(mean);
    }
    var total := ZeroStack(m);
    var i := 0;
    while i < |stacks|
      invariant 0 <= i <= |stacks| + chunk
      invariant total == StackSum(stacks[..if i < |stacks| then i else |stacks|], m)
      decreases |stacks| - i
    {
      var hi := if i + chunk < |stacks| then i + chunk else |stacks|;
      var batch := stacks[i..hi];
      StackSumAppend(stacks[..i], batch, m);
      assert stacks[..i] + batch == stacks[..hi];
      total := AddStacks(total, StackSum(batch, m));
      i := i + chunk;
    }
    assert stacks[..|stacks|] == stacks;
    r := Success(seq(m, v requires 0 <= v < m => Trunc(total[v] / (|stacks| as real))));
  }
}
