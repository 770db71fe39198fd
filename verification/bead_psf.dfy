/** Averaged point-spread function from a volume of many bead images
    (`_pycroscopy/psf/psf.py`): relative thresholding, a bounding-box size
    filter, a common odd crop footprint, crops centred on centroids and their
    voxel-wise mean. Blurring, connected-component labelling, `find_objects`
    and centres of mass are measurements supplied from outside. */
module BeadPsf {
  import opened Wrappers
  import opened PyNum
  import opened PySlice
  import opened NdArray

  // ---------------------------------------------------------------- threshold

  /** One voxel after `threshold`: below the cut it becomes 0; in binary mode a
      surviving positive value becomes 1; anything else keeps its value. */
  function Level(v: real, cut: real, binary: bool): real
  {
    if v < cut then 0.0 else if binary && v > 0.0 then 1.0 else v
  }

  function Thresholded(data: seq<real>, cut: real, binary: bool): (t: seq<real>)
    ensures |t| == |data|
  {
    seq(|data|, i requires 0 <= i < |data| => Level(data[i], cut, binary))
  }

  /** The cut `thresh.max() * min_rel_val`. */
  function RelativeCut(data: seq<real>, minRelVal: real): real
    requires |data| > 0
  {
    SeqMax(data) * minRelVal
  }

  /** `thresh[thresh < cut] = 0`. */
  method ZeroBelow(a: array<real>, cut: real)
    modifies a
    ensures a[..] == Thresholded(old(a[..]), cut, false)
  {
    var i := 0;
    while i < a.Length
      invariant 0 <= i <= a.Length
      invariant forall k :: 0 <= k < i ==> a[k] == Level(old(a[k]), cut, false)
      invariant forall k :: i <= k < a.Length ==> a[k] == old(a[k])
    {
      if a[i] < cut {
        a[i] := 0.0;
      }
      i := i + 1;
    }
  }

  /** `thresh[thresh > 0] = 1`. */
  method OneAbove(a: array<real>)
    modifies a
    ensures forall k :: 0 <= k < a.Length ==> a[k] == (if old(a[k]) > 0.0 then 1.0 else old(a[k]))
  {
    var i := 0;
    while i < a.Length
      invariant 0 <= i <= a.Length
      invariant forall k :: 0 <= k < i ==> a[k] == (if old(a[k]) > 0.0 then 1.0 else old(a[k]))
      invariant forall k :: i <= k < a.Length ==> a[k] == old(a[k])
    {
      if a[i] > 0.0 {
        a[i] := 1.0;
      }
      i := i + 1;
    }
  }

  /** `threshold(ndarray, min_rel_val, binary)` on the C-order voxels of the
      volume: it copies its input, then zeroes in place every voxel below
      max·min_rel_val and, in binary mode, sets every remaining positive voxel
      to 1. numpy's `max` of an empty array is a ValueError (None). */
  method Threshold(data: seq<real>, minRelVal: real, binary: bool) returns (r: Option<array<real>>)
    ensures r.None? <==> |data| == 0
    ensures r.Some? ==> fresh(r.value)
    ensures r.Some? ==> r.value[..] == Thresholded(data, RelativeCut(data, minRelVal), binary)
  {
    if |data| == 0 {
      return None;
    }
    var thresh := new real[|data|](i requires 0 <= i < |data| => data[i]);
    assert thresh[..] == data;
    var minTh := RelativeCut(data, minRelVal);
    ZeroBelow(thresh, minTh);
    if binary {
      ghost var before := thresh[..];
      OneAbove(thresh);
      assert forall k :: 0 <= k < |data| ==> thresh[..][k] == Thresholded(data, minTh, true)[k] by {
        forall k | 0 <= k < |data| ensures thresh[k] == Level(data[k], minTh, true) {
          assert before[k] == Level(data[k], minTh, false);
        }
      }
    }
    assert thresh[..] == Thresholded(data, minTh, binary);
    r := Some(thresh);
    assert r.value[..] == thresh[..];
  }

  /** In binary mode a non-negative volume becomes the 0/1 indicator of the
      voxels that are positive and not below the cut. */
  lemma ThresholdBinaryIndicator(data: seq<real>, cut: real)
    requires forall i :: 0 <= i < |data| ==> data[i] >= 0.0
    ensures forall i :: 0 <= i < |data| ==>
      (Thresholded(data, cut, true)[i] == 1.0 <==> data[i] >= cut && data[i] > 0.0) &&
      (Thresholded(data, cut, true)[i] == 0.0 <==> !(data[i] >= cut && data[i] > 0.0))
  {
  }

  /** Without binarisation, voxels below the cut become 0 and the others keep their
      value; thresholding twice with the same cut changes nothing more. */
  lemma ThresholdKeepsOrZeroes(data: seq<real>, cut: real)
    ensures forall i :: 0 <= i < |data| ==>
      Thresholded(data, cut, false)[i] == (if data[i] < cut then 0.0 else data[i])
    ensures Thresholded(Thresholded(data, cut, false), cut, false) == Thresholded(data, cut, false)
  {
  }

  // ---------------------------------------------------------- bounding boxes

  /** A bounding box as returned by `ndimage.find_objects`: one half-open slice per axis. */
  datatype BBox = BBox(start: Int3, stop: Int3)

  function Extent(b: BBox): Int3
  {
    Int3(b.stop.z - b.start.z, b.stop.y - b.start.y, b.stop.x - b.start.x)
  }

  /** One axis of the size test `abs(s − exp)/exp < size_tolerance`. With exp == 0
      numpy yields inf or nan, which never compares below the tolerance. */
  predicate AxisAccepted(s: int, e: int, tol: real)
  {
    e != 0 && Abs((s - e) as real) / (e as real) < tol
  }

  predicate SizeAccepted(b: BBox, e: Int3, tol: real)
  {
    AxisAccepted(Extent(b).z, e.z, tol) && AxisAccepted(Extent(b).y, e.y, tol) &&
    AxisAccepted(Extent(b).x, e.x, tol)
  }

  /** What `filter_bboxes` returns: without an expected size, every box and no
      labels; otherwise the accepted boxes with their labels (index + 1), in input
      order, and every accepted box among them. */
  predicate IsFilterResult(bboxes: seq<BBox>, exp: Option<Int3>, tol: real,
                           filtered: seq<BBox>, labels: seq<int>)
  {
    match exp
    case None => filtered == bboxes && labels == []
    case Some(e) =>
      |filtered| == |labels| &&
      (forall k :: 0 <= k < |labels| ==>
        1 <= labels[k] <= |bboxes| && filtered[k] == bboxes[labels[k] - 1] &&
        SizeAccepted(filtered[k], e, tol)) &&
      (forall k, l :: 0 <= k < l < |labels| ==> labels[k] < labels[l]) &&
      (forall i :: 0 <= i < |bboxes| && SizeAccepted(bboxes[i], e, tol) ==> i + 1 in labels)
  }

  /** `filter_bboxes(bboxes, exp_size, size_tolerance)`. */
  method FilterBBoxes(bboxes: seq<BBox>, exp: Option<Int3>, tol: real)
    returns (filtered: seq<BBox>, labels: seq<int>)
    ensures IsFilterResult(bboxes, exp, tol, filtered, labels)
  {
    filtered, labels := [], [];
    if exp.None? {
      filtered := bboxes;
      return;
    }
    var e := exp.value;
    var index := 0;
    while index < |bboxes|
      invariant 0 <= index <= |bboxes|
      invariant |filtered| == |labels|
      invariant forall k :: 0 <= k < |labels| ==>
        1 <= labels[k] <= index && filtered[k] == bboxes[labels[k] - 1] &&
        SizeAccepted(filtered[k], e, tol)
      invariant forall k, l :: 0 <= k < l < |labels| ==> labels[k] < labels[l]
      invariant forall i :: 0 <= i < index && SizeAccepted(bboxes[i], e, tol) ==> i + 1 in labels
    {
      if SizeAccepted(bboxes[index], e, tol) {
        filtered := filtered + [bboxes[index]];
        labels := labels + [index + 1];
      }
      index := index + 1;
    }
  }

  /** With a positive expected extent, a tolerance of 0 (or below) rejects a box
      even when it matches exactly, because the comparison is strict. */
  lemma ZeroToleranceRejectsBox(b: BBox, e: Int3, tol: real)
    requires e.z > 0 && tol <= 0.0
    ensures !SizeAccepted(b, e, tol)
  {
    var a := Abs((Extent(b).z - e.z) as real);
    assert a / (e.z as real) >= 0.0;
  }

  /** Hence `filter_bboxes` with tolerance 0 returns nothing at all. */
  lemma ZeroToleranceRejectsAll(bboxes: seq<BBox>, e: Int3, tol: real,
                                filtered: seq<BBox>, labels: seq<int>)
    requires e.z > 0 && tol <= 0.0
    requires IsFilterResult(bboxes, Some(e), tol, filtered, labels)
    ensures filtered == [] && labels == []
  {
    if |labels| > 0 {
      ZeroToleranceRejectsBox(filtered[0], e, tol);
      assert false;
    }
  }

  /** A box of exactly the expected size is accepted for any positive tolerance. */
  lemma ExactSizeAccepted(bboxes: seq<BBox>, i: nat, e: Int3, tol: real,
                          filtered: seq<BBox>, labels: seq<int>)
    requires i < |bboxes| && Extent(bboxes[i]) == e
    requires e.z != 0 && e.y != 0 && e.x != 0 && tol > 0.0
    requires IsFilterResult(bboxes, Some(e), tol, filtered, labels)
    ensures i + 1 in labels
  {
    assert SizeAccepted(bboxes[i], e, tol);
  }

  /** Extents of every box along one axis, as reals. */
  function Extents(bboxes: seq<BBox>, axis: nat): (s: seq<real>)
    requires axis < 3
    ensures |s| == |bboxes|
  {
    seq(|bboxes|, i requires 0 <= i < |bboxes| => Extent(bboxes[i]).At(axis) as real)
  }

  function MeanExtent(bboxes: seq<BBox>, axis: nat): real
    requires axis < 3 && |bboxes| > 0
  {
    Sum(Extents(bboxes, axis)) / |bboxes| as real
  }

  lemma ExtentsPrefix(bboxes: seq<BBox>, i: nat, axis: nat)
    requires i < |bboxes| && axis < 3
    ensures Sum(Extents(bboxes[..i + 1], axis)) ==
            Sum(Extents(bboxes[..i], axis)) + Extent(bboxes[i]).At(axis) as real
  {
    assert Extents(bboxes[..i + 1], axis)[..i] == Extents(bboxes[..i], axis);
  }

  /** `calc_av_bbox_size(bboxes)`: the per-axis mean extent, rounded half to even.
      With no boxes numpy divides by zero (nan); that case is None. */
  method CalcAvBBoxSize(bboxes: seq<BBox>) returns (avg: Option<Int3>)
    ensures avg.None? <==> |bboxes| == 0
    ensures avg.Some? ==> avg.value == Int3(RoundHalfEven(MeanExtent(bboxes, 0)),
                                            RoundHalfEven(MeanExtent(bboxes, 1)),
                                            RoundHalfEven(MeanExtent(bboxes, 2)))
  {
    var sz, sy, sx := 0.0, 0.0, 0.0;
    var i := 0;
    while i < |bboxes|
      invariant 0 <= i <= |bboxes|
      invariant sz == Sum(Extents(bboxes[..i], 0))
      invariant sy == Sum(Extents(bboxes[..i], 1))
      invariant sx == Sum(Extents(bboxes[..i], 2))
    {
      var s := Extent(bboxes[i]);
      ExtentsPrefix(bboxes, i, 0);
      ExtentsPrefix(bboxes, i, 1);
      ExtentsPrefix(bboxes, i, 2);
      sz, sy, sx := sz + s.z as real, sy + s.y as real, sx + s.x as real;
      i := i + 1;
    }
    assert bboxes[..i] == bboxes;
    if |bboxes| == 0 {
      return None;
    }
    var n := |bboxes| as real;
    return Some(Int3(RoundHalfEven(sz / n), RoundHalfEven(sy / n), RoundHalfEven(sx / n)));
  }

  /** The automatic expected size lies between the smallest and the largest extent. */
  lemma AvBBoxSizeBetween(bboxes: seq<BBox>, axis: nat, lo: int, hi: int)
    requires axis < 3 && |bboxes| > 0
    requires forall i :: 0 <= i < |bboxes| ==> lo <= Extent(bboxes[i]).At(axis) <= hi
    ensures lo <= RoundHalfEven(MeanExtent(bboxes, axis)) <= hi
  {
    var s := Extents(bboxes, axis);
    SumBounds(s, lo as real, hi as real);
    DivBetween(Sum(s), |bboxes| as real, lo as real, hi as real);
  }

  lemma DivBetween(x: real, n: real, lo: real, hi: real)
    requires n > 0.0 && n * lo <= x <= n * hi
    ensures lo <= x / n <= hi
  {
  }

  /** Largest extent along one axis, starting from 0 as `get_largest_bbox` does. */
  function LargestExtent(bboxes: seq<BBox>, axis: nat): int
    requires axis < 3
  {
    if |bboxes| == 0 then 0
    else MaxInt(LargestExtent(bboxes[..|bboxes| - 1], axis), Extent(bboxes[|bboxes| - 1]).At(axis))
  }

  /** The running maximum is 0 or one of the extents, and no extent exceeds it. */
  lemma {:induction false} LargestExtentIsMax(bboxes: seq<BBox>, axis: nat)
    requires axis < 3
    ensures LargestExtent(bboxes, axis) >= 0
    ensures forall i :: 0 <= i < |bboxes| ==> Extent(bboxes[i]).At(axis) <= LargestExtent(bboxes, axis)
    ensures LargestExtent(bboxes, axis) == 0 ||
            exists i :: 0 <= i < |bboxes| && Extent(bboxes[i]).At(axis) == LargestExtent(bboxes, axis)
    decreases |bboxes|
  {
    if |bboxes| > 0 {
      var p := bboxes[..|bboxes| - 1];
      LargestExtentIsMax(p, axis);
      assert forall i :: 0 <= i < |p| ==> bboxes[i] == p[i];
    }
  }

  lemma LargestExtentStep(bboxes: seq<BBox>, i: nat, axis: nat)
    requires i < |bboxes| && axis < 3
    ensures LargestExtent(bboxes[..i + 1], axis) ==
            MaxInt(LargestExtent(bboxes[..i], axis), Extent(bboxes[i]).At(axis))
  {
    assert bboxes[..i + 1][..i] == bboxes[..i];
  }

  predicate IsOdd(v: int) { v % 2 == 1 }

  /** The list comprehension `el if el % 2 == 1 else el + 1`. */
  function OddUp(v: int): (r: int)
    ensures IsOdd(r) && v <= r <= v + 1
  {
    if v % 2 == 1 then v else v + 1
  }

  /** One entry of the footprint: scale, round half to even, bump to odd. */
  function Footprint(largest: int, scale: real): (r: int)
    ensures IsOdd(r)
  {
    OddUp(RoundHalfEven(largest as real * scale))
  }

  /** The footprint `get_largest_bbox` returns, one odd entry per axis. */
  function LargestFootprint(bboxes: seq<BBox>, scale: real): (size: Int3)
    ensures IsOdd(size.z) && IsOdd(size.y) && IsOdd(size.x)
  {
    Int3(Footprint(LargestExtent(bboxes, 0), scale),
         Footprint(LargestExtent(bboxes, 1), scale),
         Footprint(LargestExtent(bboxes, 2), scale))
  }

  /** `get_largest_bbox(bboxes, scale)`: the component-wise largest extent, scaled,
      rounded half to even and bumped to the next odd number. */
  method GetLargestBBox(bboxes: seq<BBox>, scale: real) returns (size: Int3)
    ensures size == LargestFootprint(bboxes, scale)
  {
    var lz, ly, lx := 0, 0, 0;
    var i := 0;
    while i < |bboxes|
      invariant 0 <= i <= |bboxes|
      invariant lz == LargestExtent(bboxes[..i], 0)
      invariant ly == LargestExtent(bboxes[..i], 1)
      invariant lx == LargestExtent(bboxes[..i], 2)
    {
      LargestExtentStep(bboxes, i, 0);
      LargestExtentStep(bboxes, i, 1);
      LargestExtentStep(bboxes, i, 2);
      var s := Extent(bboxes[i]);
      lz := MaxInt(lz, s.z);
      ly := MaxInt(ly, s.y);
      lx := MaxInt(lx, s.x);
      i := i + 1;
    }
    assert bboxes[..i] == bboxes;
    size := Int3(Footprint(lz, scale), Footprint(ly, scale), Footprint(lx, scale));
  }

  /** With the default scale 1.5 the footprint is odd and at least 1.5 times (so
      also at least) every extent; without boxes it is [1, 1, 1]. */
  lemma LargestBBoxCovers(bboxes: seq<BBox>, axis: nat)
    requires axis < 3
    ensures var r := Footprint(LargestExtent(bboxes, axis), 1.5);
      IsOdd(r) && r as real >= LargestExtent(bboxes, axis) as real * 1.5 &&
      (forall i :: 0 <= i < |bboxes| ==> Extent(bboxes[i]).At(axis) <= r) &&
      (|bboxes| == 0 ==> r == 1)
  {
    LargestExtentIsMax(bboxes, axis);
    var m := LargestExtent(bboxes, axis);
    OddRoundAboveThreeHalves(m);
  }

  /** Rounding 1.5·m half to even and bumping to odd never lands below 1.5·m:
      1.5·m is an integer or a tie, and a tie rounded down is even. */
  lemma OddRoundAboveThreeHalves(m: int)
    requires m >= 0
    ensures Footprint(m, 1.5) as real >= m as real * 1.5
  {
    var x := m as real * 1.5;
    var q := RoundHalfEven(x);
    var j := m / 2;
    if m % 2 == 0 {
      assert m == 2 * j;
      assert x == (3 * j) as real;
    } else {
      assert m == 2 * j + 1;
      assert x == (3 * j + 1) as real + 0.5;
      assert q == 3 * j + 1 || q == 3 * j + 2;
    }
  }

  // -------------------------------------------------------------------- crops

  /** Bounds `[int(c − d), int(c + d) + 1)` with d = size // 2, as in `crop_PSF`. */
  function CropRange(c: real, size: int): Range
  {
    var d := size / 2;
    Range(Some(Trunc(c - d as real)), Some(Trunc(c + d as real) + 1))
  }

  function CropShape(shape: Shape3, centroid: Real3, bbox: Int3): Shape3
  {
    Shape3(Len(CropRange(centroid.z, bbox.z), shape.n0),
           Len(CropRange(centroid.y, bbox.y), shape.n1),
           Len(CropRange(centroid.x, bbox.x), shape.n2))
  }

  /** `crop_PSF(img, centroid, bbox)`: Python slicing, so a negative start counts
      from the end and bounds beyond the volume are clipped. */
  function CropPsf(img: Vol3, shape: Shape3, centroid: Real3, bbox: Int3): (crop: Vol3)
    requires HasShape(img, shape)
    ensures HasShape(crop, CropShape(shape, centroid, bbox))
  {
    Crop(img, shape, CropRange(centroid.z, bbox.z), CropRange(centroid.y, bbox.y),
         CropRange(centroid.x, bbox.x))
  }

  /** Along one axis the crop has 2d + 1 entries starting at int(c − d) whenever
      the window [c − d, c + d + 1) lies inside the axis. */
  lemma CropAxisFull(c: real, size: int, n: nat)
    requires size >= 0
    requires c - (size / 2) as real >= 0.0 && c + (size / 2) as real + 1.0 <= n as real
    ensures Len(CropRange(c, size), n) == 2 * (size / 2) + 1
    ensures Lo(CropRange(c, size), n) == Trunc(c - (size / 2) as real)
  {
    var d := size / 2;
    var f := c.Floor;
    assert Trunc(c - d as real) == f - d;
    assert Trunc(c + d as real) == f + d;
  }

  /** A centroid whose odd footprint fits inside the volume gives a crop of
      exactly the footprint's shape. */
  lemma CropPsfFits(img: Vol3, shape: Shape3, c: Real3, bbox: Int3)
    requires HasShape(img, shape)
    requires IsOdd(bbox.z) && IsOdd(bbox.y) && IsOdd(bbox.x)
    requires bbox.z >= 1 && bbox.y >= 1 && bbox.x >= 1
    requires c.z - (bbox.z / 2) as real >= 0.0 && c.z + (bbox.z / 2) as real + 1.0 <= shape.n0 as real
    requires c.y - (bbox.y / 2) as real >= 0.0 && c.y + (bbox.y / 2) as real + 1.0 <= shape.n1 as real
    requires c.x - (bbox.x / 2) as real >= 0.0 && c.x + (bbox.x / 2) as real + 1.0 <= shape.n2 as real
    ensures ShapeOf(CropShape(shape, c, bbox)) == bbox
  {
    CropAxisFull(c.z, bbox.z, shape.n0);
    CropAxisFull(c.y, bbox.y, shape.n1);
    CropAxisFull(c.x, bbox.x, shape.n2);
  }

  predicate Fits(shape: Shape3, centroid: Real3, bbox: Int3)
  {
    ShapeOf(CropShape(shape, centroid, bbox)) == bbox
  }

  /** The crops `crop_PSFs` keeps: in centroid order, those whose shape equals the footprint. */
  function KeptCrops(img: Vol3, shape: Shape3, centroids: seq<Real3>, bbox: Int3): (r: seq<Vol3>)
    requires HasShape(img, shape)
    ensures |r| <= |centroids|
    ensures bbox.z >= 0 && bbox.y >= 0 && bbox.x >= 0 ==>
      forall p :: p in r ==> HasShape(p, Shape3(bbox.z, bbox.y, bbox.x))
  {
    if |centroids| == 0 then []
    else
      var c := centroids[|centroids| - 1];
      KeptCrops(img, shape, centroids[..|centroids| - 1], bbox) +
      (if Fits(shape, c, bbox) then [CropPsf(img, shape, c, bbox)] else [])
  }

  /** When every centroid is far enough from the border, no crop is dropped. */
  lemma {:induction false} AllInteriorKept(img: Vol3, shape: Shape3, centroids: seq<Real3>, bbox: Int3)
    requires HasShape(img, shape)
    requires forall i :: 0 <= i < |centroids| ==> Fits(shape, centroids[i], bbox)
    ensures |KeptCrops(img, shape, centroids, bbox)| == |centroids|
    decreases |centroids|
  {
    if |centroids| > 0 {
      AllInteriorKept(img, shape, centroids[..|centroids| - 1], bbox);
    }
  }

  lemma KeptCropsStep(img: Vol3, shape: Shape3, centroids: seq<Real3>, i: nat, bbox: Int3)
    requires HasShape(img, shape) && i < |centroids|
    ensures KeptCrops(img, shape, centroids[..i + 1], bbox) ==
      KeptCrops(img, shape, centroids[..i], bbox) +
      (if Fits(shape, centroids[i], bbox) then [CropPsf(img, shape, centroids[i], bbox)] else [])
  {
    assert centroids[..i + 1][..i] == centroids[..i];
  }

  /** `crop_PSFs(stack, centroids, bbox_size)`. */
  method CropPsfs(img: Vol3, shape: Shape3, centroids: seq<Real3>, bbox: Int3) returns (psfs: seq<Vol3>)
    requires HasShape(img, shape)
    ensures psfs == KeptCrops(img, shape, centroids, bbox)
  {
    psfs := [];
    var i := 0;
    while i < |centroids|
      invariant 0 <= i <= |centroids|
      invariant psfs == KeptCrops(img, shape, centroids[..i], bbox)
    {
      KeptCropsStep(img, shape, centroids, i, bbox);
      var crop := CropPsf(img, shape, centroids[i], bbox);
      if Fits(shape, centroids[i], bbox) {
        psfs := psfs + [crop];
      }
      i := i + 1;
    }
    assert centroids[..i] == centroids;
  }

  // --------------------------------------------------------------------- mean

  predicate AllShaped(vols: seq<Vol3>, s: Shape3)
  {
    forall t :: 0 <= t < |vols| ==> HasShape(vols[t], s)
  }

  function Column(vols: seq<Vol3>, s: Shape3, i: nat, j: nat, k: nat): (c: seq<real>)
    requires AllShaped(vols, s) && i < s.n0 && j < s.n1 && k < s.n2
    ensures |c| == |vols|
  {
    seq(|vols|, t requires 0 <= t < |vols| => vols[t][i][j][k])
  }

  /** `np.mean(PSFs, axis=0)`: the voxel-wise mean of a non-empty list of equally shaped crops. */
  function MeanVolume(vols: seq<Vol3>, s: Shape3): (m: Vol3)
    requires |vols| > 0 && AllShaped(vols, s)
    ensures HasShape(m, s)
  {
    seq(s.n0, i requires 0 <= i < s.n0 =>
      seq(s.n1, j requires 0 <= j < s.n1 =>
        seq(s.n2, k requires 0 <= k < s.n2 => Sum(Column(vols, s, i, j, k)) / |vols| as real)))
  }

  /** Each voxel of the mean lies between the smallest and largest value the crops have there. */
  lemma MeanVolumeBetween(vols: seq<Vol3>, s: Shape3, i: nat, j: nat, k: nat, lo: real, hi: real)
    requires |vols| > 0 && AllShaped(vols, s) && i < s.n0 && j < s.n1 && k < s.n2
    requires forall t :: 0 <= t < |vols| ==> lo <= vols[t][i][j][k] <= hi
    ensures lo <= MeanVolume(vols, s)[i][j][k] <= hi
  {
    var c := Column(vols, s, i, j, k);
    SumBounds(c, lo, hi);
    DivBetween(Sum(c), |vols| as real, lo, hi);
  }

  // ------------------------------------------------------------ the PSF class

  /** Expected-size argument of the constructor: 'auto', None, or explicit extents. */
  datatype ExpSize = Auto | NoFilter | Expected(size: Int3)

  /** The outcome of `cc3d.connected_components` on the thresholded voxels: one
      bounding box per label 1..n (cc3d numbers labels consecutively) and the
      centre of mass of the blurred volume restricted to each label. */
  datatype Labelling = Labelling(boxes: seq<BBox>, centerOfMass: int -> Real3)

  /** The size the constructor hands to `filter_bboxes`: the automatic size for
      'auto' (without boxes numpy's mean is nan and the filter has nothing to test,
      so any value does), none for None, and the explicit extents otherwise. */
  function FilterSize(expSize: ExpSize, boxes: seq<BBox>): (e: Option<Int3>)
    ensures expSize.NoFilter? <==> e.None?
    ensures expSize.Expected? ==> e == Some(expSize.size)
    ensures expSize.Auto? && |boxes| > 0 ==>
              e == Some(Int3(RoundHalfEven(MeanExtent(boxes, 0)), RoundHalfEven(MeanExtent(boxes, 1)),
                             RoundHalfEven(MeanExtent(boxes, 2))))
  {
    match expSize
    case Auto =>
      if |boxes| == 0 then Some(Int3(0, 0, 0))
      else Some(Int3(RoundHalfEven(MeanExtent(boxes, 0)), RoundHalfEven(MeanExtent(boxes, 1)),
                     RoundHalfEven(MeanExtent(boxes, 2))))
    case NoFilter => None
    case Expected(e) => Some(e)
  }

  /** The `PSF` generator class: detection in the constructor, the centroids, the
      crops and their mean computed lazily on first access. */
  class PsfGenerator {
    const stack: Vol3
    const shape: Shape3
    const gblur: Vol3
    const thresh: array<real>
    const labelling: Labelling
    const totalFoundObjects: nat
    const labels: seq<int>
    const bboxSize: Int3
    var centroids: Option<seq<Real3>>
    var psfs: Option<seq<Vol3>>
    var meanPsf: Option<Vol3>

    /** `PSF.__init__`: blur (skipped when gblur_std is None), threshold (binary when
        value_tolerance == 0), label, filter the boxes by size and derive the common
        odd footprint of the accepted ones. */
    constructor(stack: Vol3, shape: Shape3, gblurStd: Option<real>, thMin: real,
                valueTolerance: real, expSize: ExpSize, sizeTolerance: real,
                blur: (Vol3, real) -> Vol3, components: (seq<real>, real) -> Labelling)
      requires HasShape(stack, shape) && Volume(shape) > 0
      requires gblurStd.Some? ==> HasShape(blur(stack, gblurStd.value), shape)
      ensures this.stack == stack && this.shape == shape
      ensures gblurStd.None? ==> gblur == stack
      ensures HasShape(gblur, shape)
      ensures thresh[..] == Thresholded(Ravel(gblur, shape), RelativeCut(Ravel(gblur, shape), thMin),
                                        valueTolerance == 0.0)
      ensures labelling == components(thresh[..], Abs(valueTolerance))
      ensures totalFoundObjects == |labelling.boxes|
      ensures exists f :: IsFilterResult(labelling.boxes, FilterSize(expSize, labelling.boxes),
                                         sizeTolerance, f, labels) &&
                          bboxSize == LargestFootprint(f, 1.5)
      ensures expSize.NoFilter? ==> labels == [] && bboxSize == LargestFootprint(labelling.boxes, 1.5)
      ensures forall k :: 0 <= k < |labels| ==> 1 <= labels[k] <= totalFoundObjects
      ensures IsOdd(bboxSize.z) && IsOdd(bboxSize.y) && IsOdd(bboxSize.x)
      ensures centroids.None? && psfs.None? && meanPsf.None?
      ensures fresh(thresh)
    {
      this.stack := stack;
      this.shape := shape;
      var g := if gblurStd.None? then stack else blur(stack, gblurStd.value);
      gblur := g;
      var voxels := Ravel(g, shape);
      var t := Threshold(voxels, thMin, valueTolerance == 0.0);
      thresh := t.value;
      var lab := components(t.value[..], Abs(valueTolerance));
      labelling := lab;
      totalFoundObjects := |lab.boxes|;
      var filtered, ls := FilterBBoxes(lab.boxes, FilterSize(expSize, lab.boxes), sizeTolerance);
      labels := ls;
      var size := GetLargestBBox(filtered, 1.5);
      bboxSize := size;
      centroids, psfs, meanPsf := None, None, None;
    }

    /** `__repr__`'s rejected count: every found object without a label. */
    function RejectedCount(): (r: int)
      reads this
    {
      totalFoundObjects - |labels|
    }

    /** `calc_mean_psf`: centroids of the accepted labels, the crops that fit the
        footprint, and their mean (None for an empty crop list, where numpy's mean is nan). */
    method CalcMeanPsf()
      modifies this
      requires HasShape(stack, shape)
      ensures centroids == Some(seq(|labels|, i requires 0 <= i < |labels| => labelling.centerOfMass(labels[i])))
      ensures psfs == Some(KeptCrops(stack, shape, centroids.value, bboxSize))
      ensures meanPsf == (if |psfs.value| > 0 && bboxSize.z >= 0 && bboxSize.y >= 0 && bboxSize.x >= 0
                          then Some(MeanVolume(psfs.value, Shape3(bboxSize.z, bboxSize.y, bboxSize.x)))
                          else None)
    {
      var cs := seq(|labels|, i requires 0 <= i < |labels| => labelling.centerOfMass(labels[i]));
      centroids := Some(cs);
      var ps := CropPsfs(stack, shape, cs, bboxSize);
      psfs := Some(ps);
      if |ps| > 0 && bboxSize.z >= 0 && bboxSize.y >= 0 && bboxSize.x >= 0 {
        meanPsf := Some(MeanVolume(ps, Shape3(bboxSize.z, bboxSize.y, bboxSize.x)));
      } else {
        meanPsf := None;
      }
    }

    /** The `mean_PSF` property: computed on first access, then served from the cache. */
    method MeanPsf() returns (m: Option<Vol3>)
      modifies this
      requires HasShape(stack, shape)
      ensures old(meanPsf).Some? ==> unchanged(this) && m == old(meanPsf)
      ensures m == meanPsf
      ensures old(meanPsf).None? ==>
                centroids == Some(seq(|labels|, i requires 0 <= i < |labels| => labelling.centerOfMass(labels[i]))) &&
                psfs == Some(KeptCrops(stack, shape, centroids.value, bboxSize)) &&
                m == (if |psfs.value| > 0 && bboxSize.z >= 0 && bboxSize.y >= 0 && bboxSize.x >= 0
                      then Some(MeanVolume(psfs.value, Shape3(bboxSize.z, bboxSize.y, bboxSize.x)))
                      else None)
    {
      if meanPsf.None? {
        CalcMeanPsf();
      }
      m := meanPsf;
    }
  }

  /** Every box the filter keeps fits inside the footprint derived from the kept
      boxes; without an expected size that is every box found. */
  lemma KeptBoxesFitFootprint(bboxes: seq<BBox>, exp: Option<Int3>, tol: real,
                              filtered: seq<BBox>, labels: seq<int>, axis: nat)
    requires axis < 3 && IsFilterResult(bboxes, exp, tol, filtered, labels)
    ensures exp.None? ==> forall i :: 0 <= i < |bboxes| ==>
              Extent(bboxes[i]).At(axis) <= LargestFootprint(filtered, 1.5).At(axis)
    ensures forall k :: 0 <= k < |labels| ==>
              Extent(bboxes[labels[k] - 1]).At(axis) <= LargestFootprint(filtered, 1.5).At(axis)
  {
    LargestBBoxCovers(filtered, axis);
  }

  /** Without an expected size `__repr__` reports every found object as rejected,
      although the filter kept them all. */
  lemma ReprWithoutFilter(g: PsfGenerator)
    requires g.labels == []
    ensures g.RejectedCount() == g.totalFoundObjects
  {
  }
}
