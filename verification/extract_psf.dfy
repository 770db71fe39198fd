/** Averaged, supersampled point-spread function extracted from a volume of bead
    images (`extract_psf` in deconvolve/python/calc/psf.py): odd field sizes from the
    theoretical resolutions, an iterated background estimate, connected candidate
    regions gated by border distance, FWHM volume and centring, a circular roll of
    each resampled candidate and the running normalised sum.

    Arrays that numpy reshapes freely (the blurred stack, the resampled candidates
    and the accumulator) are modelled flattened in C order; the bead stack itself
    keeps its three axes because the candidate window is cut from it. */
module ExtractPsf {
  import opened Wrappers
  import opened PyNum
  import opened PySlice
  import opened NdArray
  import BeadPsf

  datatype ExtractError =
    | ZeroSpacing          // a resolution divided by a zero voxel size
    | ZeroDivision         // the background loop divided by an empty voxel count
    | NegativeShape        // np.zeros with a negative supersampled extent
    | NonFinitePeak(labelNo: int)  // a candidate divided by a zero maximum (inf/nan in numpy)
    | NoCandidate          // the average divided by a zero count (nan in numpy)

  // ------------------------------------------------------------------ shapes

  /** The parabola with separate curvatures on the two sides of z = 0 (`dualparabole`). */
  function DualParabola(z: real, neg: real, pos: real): (p: real)
    ensures z <= 0.0 ==> p == neg * (z * z)
    ensures z > 0.0 ==> p == pos * (z * z)
  {
    if z <= 0.0 then neg * (z * z) else pos * (z * z)
  }

  /** Swapping the two curvatures mirrors the curve about z = 0. */
  lemma DualParabolaMirror(z: real, neg: real, pos: real)
    ensures DualParabola(-z, pos, neg) == DualParabola(z, neg, pos)
  {
    if z == 0.0 {
      assert DualParabola(-z, pos, neg) == 0.0;
    }
  }

  predicate AxisInside(c: int, h: int, n: int)
  {
    c - h >= 0 && c + h + 1 <= n
  }

  /** The loop of `check_boundary` from axis i on, returning at the first axis that fails. */
  function CheckAxes(c: Int3, h: Int3, shape: Int3, i: nat): (ok: bool)
    requires i <= 3
    ensures ok <==> forall a :: i <= a < 3 ==> AxisInside(c.At(a), h.At(a), shape.At(a))
    decreases 3 - i
  {
    if i == 3 then true
    else if c.At(i) - h.At(i) < 0 || c.At(i) + h.At(i) + 1 > shape.At(i) then false
    else CheckAxes(c, h, shape, i + 1)
  }

  /** `check_boundary(center, min_size, image_shape)`. */
  function CheckBoundary(c: Int3, h: Int3, shape: Int3): (ok: bool)
    ensures ok <==> AxisInside(c.z, h.z, shape.z) && AxisInside(c.y, h.y, shape.y) && AxisInside(c.x, h.x, shape.x)
  {
    assert c.At(0) == c.z && c.At(1) == c.y && c.At(2) == c.x;
    CheckAxes(c, h, shape, 0)
  }

  /** The slice `mx - half : mx + half + 1` of one axis. */
  function Window(c: int, h: int): Range
  {
    Range(Some(c - h), Some(c + h + 1))
  }

  function WindowShape(shape: Shape3, c: Int3, h: Int3): Shape3
  {
    Shape3(Len(Window(c.z, h.z), shape.n0), Len(Window(c.y, h.y), shape.n1), Len(Window(c.x, h.x), shape.n2))
  }

  /** `stack[candidate_abs_loc]`. */
  function CandidateCrop(stack: Vol3, shape: Shape3, c: Int3, h: Int3): (crop: Vol3)
    requires HasShape(stack, shape)
    ensures HasShape(crop, WindowShape(shape, c, h))
  {
    Crop(stack, shape, Window(c.z, h.z), Window(c.y, h.y), Window(c.x, h.x))
  }

  lemma WindowInside(c: int, h: int, n: nat)
    requires h >= 0 && AxisInside(c, h, n)
    ensures Lo(Window(c, h), n) == c - h
    ensures Len(Window(c, h), n) == 2 * h + 1
  {
  }

  /** When the boundary check passes, the candidate window lies inside the stack:
      it has 2·half+1 voxels per axis, each the stack voxel at the same offset. */
  lemma BoundaryCropInside(stack: Vol3, shape: Shape3, c: Int3, h: Int3)
    requires HasShape(stack, shape) && h.z >= 0 && h.y >= 0 && h.x >= 0
    requires CheckBoundary(c, h, ShapeOf(shape))
    ensures WindowShape(shape, c, h) == Shape3(2 * h.z + 1, 2 * h.y + 1, 2 * h.x + 1)
    ensures forall i, j, k :: 0 <= i <= 2 * h.z && 0 <= j <= 2 * h.y && 0 <= k <= 2 * h.x ==>
      CandidateCrop(stack, shape, c, h)[i][j][k] == stack[c.z - h.z + i][c.y - h.y + j][c.x - h.x + k]
  {
    WindowInside(c.z, h.z, shape.n0);
    WindowInside(c.y, h.y, shape.n1);
    WindowInside(c.x, h.x, shape.n2);
  }

  /** Voxels per resolution length: `int(np.ceil(res / spacing))`. */
  function InPx(res: real, spacing: real): int
    requires spacing != 0.0
  {
    Ceil(res / spacing)
  }

  /** Field size and its half on each axis. */
  datatype Field = Field(size: Int3, half: Int3)

  /** `psf_field_size` and `half_psf_field`: seven resolution lengths bumped to the next
      odd number, and their floor halves. */
  function FieldOf(spacing: Real3, axialRes: real, lateralRes: real): (r: Result<Field, ExtractError>)
    ensures r.Failure? <==> spacing.z == 0.0 || spacing.x == 0.0
    ensures r.Success? ==>
      var a, l := InPx(axialRes, spacing.z), InPx(lateralRes, spacing.x);
      r.value.size == Int3(BeadPsf.OddUp(7 * a), BeadPsf.OddUp(7 * l), BeadPsf.OddUp(7 * l))
    ensures r.Success? ==> HalfOf(r.value.size, r.value.half)
  {
    if spacing.z == 0.0 || spacing.x == 0.0 then Failure(ZeroSpacing)
    else
      var a, l := InPx(axialRes, spacing.z), InPx(lateralRes, spacing.x);
      var size := Int3(BeadPsf.OddUp(7 * a), BeadPsf.OddUp(7 * l), BeadPsf.OddUp(7 * l));
      OddHalf(size.z);
      OddHalf(size.y);
      OddHalf(size.x);
      Success(Field(size, Int3(size.z / 2, size.y / 2, size.x / 2)))
  }

  /** Every field extent is odd and equals 2·half + 1. */
  predicate HalfOf(size: Int3, half: Int3)
  {
    BeadPsf.IsOdd(size.z) && BeadPsf.IsOdd(size.y) && BeadPsf.IsOdd(size.x) &&
    size.z == 2 * half.z + 1 && size.y == 2 * half.y + 1 && size.x == 2 * half.x + 1
  }

  /** Python's `i // 2` of an odd number is its floor half, negative or not. */
  lemma OddHalf(s: int)
    requires BeadPsf.IsOdd(s)
    ensures s == 2 * (s / 2) + 1
  {
  }

  /** A field without negative extents has positive extents and halves. */
  lemma FieldPositive(f: Field)
    requires HalfOf(f.size, f.half) && f.size.z >= 0 && f.size.y >= 0 && f.size.x >= 0
    ensures f.size.z >= 1 && f.size.y >= 1 && f.size.x >= 1
    ensures f.half.z >= 0 && f.half.y >= 0 && f.half.x >= 0
  {
  }

  /** Points added between two grid nodes when resampling a candidate. */
  const Added: int := 2

  /** `j*n - n + j`: the supersampled extent of an axis with j nodes. */
  function Supersampled(j: int): (m: int)
  {
    j * Added - Added + j
  }

  /** The supersampled extent is (j−1)(n+1)+1; an odd extent stays odd and a
      positive one stays positive. */
  lemma SupersampledExtent(j: int)
    ensures Supersampled(j) == (j - 1) * (Added + 1) + 1
    ensures BeadPsf.IsOdd(j) ==> BeadPsf.IsOdd(Supersampled(j))
    ensures j >= 1 <==> Supersampled(j) >= 1
  {
    assert Supersampled(j) == 3 * j - 2;
    if BeadPsf.IsOdd(j) {
      var q := j / 2;
      assert j == 2 * q + 1;
      OddForm(Supersampled(j), 3 * q);
    }
  }

  lemma OddForm(m: int, q: int)
    requires m == 2 * q + 1
    ensures BeadPsf.IsOdd(m)
  {
  }

  lemma PositiveProduct(a: int, b: int, c: int)
    requires a >= 1 && b >= 1 && c >= 1
    ensures a * b * c >= 1
  {
    assert a * b >= 1;
  }

  function NShape(size: Int3): Int3
  {
    Int3(Supersampled(size.z), Supersampled(size.y), Supersampled(size.x))
  }

  function Product(s: Int3): int
  {
    s.z * s.y * s.x
  }

  // ------------------------------------------------------------ background

  /** Mean and standard deviation of a non-empty selection; numpy gives nan for an
      empty one, modelled as None. */
  datatype Moments = Moments(mean: real, std: real)

  function Mean(s: seq<real>): real
    requires |s| > 0
  {
    Sum(s) / |s| as real
  }

  function Deviations(s: seq<real>, m: real): (d: seq<real>)
    ensures |d| == |s|
  {
    seq(|s|, i requires 0 <= i < |s| => Sq(s[i] - m))
  }

  /** `a.mean()` and `a.std()` (population deviation); the square root is a parameter. */
  function Stats(s: seq<real>, sqrt: real -> real): Option<Moments>
  {
    if |s| == 0 then None
    else Some(Moments(Mean(s), sqrt(Mean(Deviations(s, Mean(s))))))
  }

  function Cut(m: Moments, k: real): real
  {
    m.mean + k * m.std
  }

  /** `np.where(v < mean + k*std)` as a mask; every comparison with nan is false. */
  function BelowCut(v: seq<real>, st: Option<Moments>, k: real): (mask: seq<bool>)
    ensures |mask| == |v|
  {
    seq(|v|, i requires 0 <= i < |v| => st.Some? && v[i] < Cut(st.value, k))
  }

  /** `np.where(v < mean + std, 0, 1)`: the candidate voxels. With nan statistics
      every voxel is a candidate. */
  function Foreground(v: seq<real>, st: Option<Moments>): (mask: seq<bool>)
    ensures |mask| == |v|
    ensures forall i :: 0 <= i < |v| ==> (mask[i] <==> st.None? || v[i] >= Cut(st.value, 1.0))
  {
    seq(|v|, i requires 0 <= i < |v| => !(st.Some? && v[i] < Cut(st.value, 1.0)))
  }

  function CountTrue(mask: seq<bool>): (n: nat)
    ensures n <= |mask|
  {
    if |mask| == 0 then 0 else CountTrue(mask[..|mask| - 1]) + (if mask[|mask| - 1] then 1 else 0)
  }

  /** `v[mask]`: the selected values in order. */
  function Selected(v: seq<real>, mask: seq<bool>): (s: seq<real>)
    requires |mask| == |v|
    ensures |s| == CountTrue(mask)
  {
    if |v| == 0 then []
    else Selected(v[..|v| - 1], mask[..|v| - 1]) + (if mask[|v| - 1] then [v[|v| - 1]] else [])
  }

  lemma {:induction false} NothingSelected(v: seq<real>, mask: seq<bool>)
    requires |mask| == |v| && forall i :: 0 <= i < |mask| ==> !mask[i]
    ensures CountTrue(mask) == 0 && Selected(v, mask) == []
    decreases |v|
  {
    if |v| > 0 {
      NothingSelected(v[..|v| - 1], mask[..|v| - 1]);
    }
  }

  /** `(remaining_voxels - mask[0].size) / remaining_voxels`. */
  function Drop(remaining: nat, count: nat): real
    requires remaining > 0
  {
    (remaining - count) as real / remaining as real
  }

  /** The estimate: iterations run, the last statistics and the candidate mask. */
  datatype Background = Background(iterations: nat, stats: Option<Moments>, foreground: seq<bool>)

  /** The background loop from iteration i, entered with the statistics `st` whose
      cut gave the current mask and with `remaining` voxels counted before it. */
  function BackgroundFrom(v: seq<real>, k: real, sqrt: real -> real, st: Option<Moments>,
                          remaining: nat, i: nat): Result<Background, ExtractError>
    requires i <= 10
    decreases 10 - i
  {
    if i == 10 then Success(Background(10, st, Foreground(v, st)))
    else
      var next := Stats(Selected(v, BelowCut(v, st, k)), sqrt);
      var count := CountTrue(BelowCut(v, next, k));
      if remaining == 0 then Failure(ZeroDivision)
      else if Drop(remaining, count) < 0.001 then Success(Background(i + 1, next, Foreground(v, next)))
      else BackgroundFrom(v, k, sqrt, next, count, i + 1)
  }

  /** The whole background estimate, starting from the statistics of every voxel. */
  function BackgroundOf(v: seq<real>, k: real, sqrt: real -> real): Result<Background, ExtractError>
  {
    BackgroundFrom(v, k, sqrt, Stats(v, sqrt), |v|, 0)
  }

  /** The background loop of `extract_psf` (`accept_as_possible_peak` is k). */
  method EstimateBackground(v: seq<real>, k: real, sqrt: real -> real) returns (r: Result<Background, ExtractError>)
    ensures r == BackgroundOf(v, k, sqrt)
  {
    var st := Stats(v, sqrt);
    var mask := BelowCut(v, st, k);
    var remaining: nat := |v|;
    var i := 0;
    while i < 10
      invariant 0 <= i <= 10
      invariant mask == BelowCut(v, st, k)
      invariant BackgroundFrom(v, k, sqrt, st, remaining, i) == BackgroundOf(v, k, sqrt)
    {
      st := Stats(Selected(v, mask), sqrt);
      mask := BelowCut(v, st, k);
      if remaining == 0 {
        return Failure(ZeroDivision);
      }
      if Drop(remaining, CountTrue(mask)) < 0.001 {
        return Success(Background(i + 1, st, Foreground(v, st)));
      }
      remaining := CountTrue(mask);
      i := i + 1;
    }
    r := Success(Background(10, st, Foreground(v, st)));
  }

  /** The loop runs at least once and at most ten times, and the candidate mask is
      `blurred >= mean + std` for the statistics of the last iteration. */
  lemma {:induction false} BackgroundBounded(v: seq<real>, k: real, sqrt: real -> real, st: Option<Moments>,
                                             remaining: nat, i: nat)
    requires i <= 10
    ensures var r := BackgroundFrom(v, k, sqrt, st, remaining, i);
      r.Success? ==> i < r.value.iterations <= 10 || (i == 10 && r.value.iterations == 10)
    ensures var r := BackgroundFrom(v, k, sqrt, st, remaining, i);
      r.Success? ==> r.value.foreground == Foreground(v, r.value.stats)
    decreases 10 - i
  {
    if i < 10 {
      var next := Stats(Selected(v, BelowCut(v, st, k)), sqrt);
      BackgroundBounded(v, k, sqrt, next, CountTrue(BelowCut(v, next, k)), i + 1);
    }
  }

  lemma BackgroundIterations(v: seq<real>, k: real, sqrt: real -> real)
    ensures BackgroundOf(v, k, sqrt).Success? ==>
      1 <= BackgroundOf(v, k, sqrt).value.iterations <= 10 &&
      BackgroundOf(v, k, sqrt).value.foreground == Foreground(v, BackgroundOf(v, k, sqrt).value.stats)
  {
    BackgroundBounded(v, k, sqrt, Stats(v, sqrt), |v|, 0);
  }

  lemma ConstantSum(v: seq<real>, c: real)
    requires forall i :: 0 <= i < |v| ==> v[i] == c
    ensures Sum(v) == |v| as real * c
  {
    SumBounds(v, c, c);
  }

  /** A uniform stack has zero deviation, so no voxel is strictly below the first cut;
      the next iteration's count is then zero and the one after divides by it: the
      function raises ZeroDivisionError. */
  lemma UniformStackFails(v: seq<real>, k: real, sqrt: real -> real)
    requires |v| > 0 && forall i :: 0 <= i < |v| ==> v[i] == v[0]
    requires sqrt(0.0) == 0.0
    ensures BackgroundOf(v, k, sqrt) == Failure(ZeroDivision)
  {
    UniformMoments(v, sqrt);
    UniformFirstIteration(v, k, sqrt);
    EmptyCountFails(v, k, sqrt);
  }

  /** No voxel of a uniform stack lies strictly below a cut with zero deviation, so
      the first iteration finds nothing below its cut and continues with count 0. */
  lemma UniformFirstIteration(v: seq<real>, k: real, sqrt: real -> real)
    requires |v| > 0 && forall i :: 0 <= i < |v| ==> v[i] == v[0]
    ensures BackgroundFrom(v, k, sqrt, Some(Moments(v[0], 0.0)), |v|, 0) == BackgroundFrom(v, k, sqrt, None, 0, 1)
  {
    var st0 := Some(Moments(v[0], 0.0));
    var m0 := BelowCut(v, st0, k);
    assert Cut(Moments(v[0], 0.0), k) == v[0];
    assert forall i :: 0 <= i < |v| ==> !m0[i];
    NothingSelected(v, m0);
    var m1 := BelowCut(v, None, k);
    NothingSelected(v, m1);
    DropAll(|v|);
  }

  /** Losing every remaining voxel is a relative drop of 1. */
  lemma DropAll(n: nat)
    requires n > 0
    ensures Drop(n, 0) == 1.0
  {
    var x := n as real;
    assert (n - 0) as real == x;
    assert x / x == 1.0;
  }

  /** An iteration entered with zero remaining voxels divides by zero. */
  lemma EmptyCountFails(v: seq<real>, k: real, sqrt: real -> real)
    ensures BackgroundFrom(v, k, sqrt, None, 0, 1) == Failure(ZeroDivision)
  {
  }

  lemma UniformMoments(v: seq<real>, sqrt: real -> real)
    requires |v| > 0 && forall i :: 0 <= i < |v| ==> v[i] == v[0]
    requires sqrt(0.0) == 0.0
    ensures Stats(v, sqrt) == Some(Moments(v[0], 0.0))
  {
    var c := v[0];
    ConstantSum(v, c);
    assert Mean(v) == c;
    var d := Deviations(v, c);
    assert forall i :: 0 <= i < |d| ==> d[i] == 0.0;
    ConstantSum(d, 0.0);
    assert Mean(d) == 0.0;
  }

  // ------------------------------------------------------------- candidates

  /** The scipy measurements of one labelled region: the stack maximum inside it, the
      10th percentile, maximum and centre of mass of the candidate window, the resampled
      candidate (flattened) and its maximum and rounded centre of mass. */
  datatype Measure = Measure(maxPos: Int3, p10: real, localMax: Int3, massCenter: Real3,
                             npsf: seq<real>, nlocalMax: Int3, cof: Int3)

  /** What the loop body does with one label. */
  datatype Verdict =
    | Border              // maximum too close to the stack border: discarded
    | FwhmVolume          // FWHM volume out of [0.5, 2.5]·hwhm: discarded
    | OffCentre           // maximum too far from the centre of mass: discarded
    | Misaligned          // resampled maximum too far from its centre of mass: skipped
    | Flat                // zero maximum after subtracting the percentile
    | Accepted(psf: seq<real>)

  predicate Discards(v: Verdict)
  {
    v.Border? || v.FwhmVolume? || v.OffCentre?
  }

  /** What every candidate shares: the stack, the field, the theoretical FWHM volume,
      the voxel sizes and the accumulator length. */
  datatype Setup = Setup(stack: Vol3, shape: Shape3, field: Field, hwhm: int, voxel: Real3, len: nat)

  predicate ValidSetup(s: Setup)
  {
    HasShape(s.stack, s.shape) && HalfOf(s.field.size, s.field.half) &&
    s.field.half.z >= 0 && s.field.half.y >= 0 && s.field.half.x >= 0 && s.len >= 1
  }

  /** Voxels of the supersampled shape of a field with positive extents. */
  function SupersampledVolume(size: Int3): (n: nat)
    requires size.z >= 1 && size.y >= 1 && size.x >= 1
    ensures n >= 1 && n == Product(NShape(size))
  {
    SupersampledExtent(size.z);
    SupersampledExtent(size.y);
    SupersampledExtent(size.x);
    PositiveProduct(Supersampled(size.z), Supersampled(size.y), Supersampled(size.x));
    Product(NShape(size))
  }

  function CountAtLeast(f: seq<real>, t: real): (n: nat)
    ensures n <= |f|
  {
    if |f| == 0 then 0 else CountAtLeast(f[..|f| - 1], t) + (if f[|f| - 1] >= t then 1 else 0)
  }

  /** The FWHM gate: the count of voxels at least halfway between the percentile and
      the maximum must lie in [0.5, 2.5] theoretical volumes. */
  predicate FwhmOk(count: nat, hwhm: int)
  {
    !(count as real > 2.5 * hwhm as real || (count as real) < 0.5 * hwhm as real)
  }

  /** Squared physical distance between the window maximum and the centre of mass. */
  function DistSq(l: Int3, c: Real3, v: Real3): (d: real)
    ensures d >= 0.0
  {
    Sq(l.z as real * v.z - c.z * v.z) + Sq(l.y as real * v.y - c.y * v.y) + Sq(l.x as real * v.x - c.x * v.x)
  }

  /** `dist > 5e-7` compared on squares: the square root is monotone on [0, ∞). */
  const MaxDistSq: real := 0.00000000000025

  /** Squared grid distance between the rounded centre of mass and the maximum of the
      resampled candidate (`d2 > 6` compared on squares). */
  function GridDistSq(a: Int3, b: Int3): (d: int)
    ensures d >= 0
  {
    (a.z - b.z) * (a.z - b.z) + (a.y - b.y) * (a.y - b.y) + (a.x - b.x) * (a.x - b.x)
  }

  /** The roll amount: `np.roll` without an axis shifts the flattened array by the sum
      of the three per-axis displacements. */
  function RollAmount(nlocalMax: Int3, cof: Int3): int
  {
    (nlocalMax.z - cof.z) + (nlocalMax.y - cof.y) + (nlocalMax.x - cof.x)
  }

  /** `np.roll(a, shift)` on a flattened array: element i moves to (i + shift) mod n. */
  function Roll(a: seq<real>, shift: int): (r: seq<real>)
    ensures |r| == |a|
  {
    if |a| == 0 then []
    else seq(|a|, j requires 0 <= j < |a| => a[(j - shift) % |a|])
  }

  /** `ndarray.resize(n)`: truncates, or pads with zeros. */
  function Resize(a: seq<real>, n: nat): (r: seq<real>)
    ensures |r| == n
    ensures forall i :: 0 <= i < n ==> r[i] == (if i < |a| then a[i] else 0.0)
  {
    if |a| >= n then a[..n] else a + seq(n - |a|, _ => 0.0)
  }

  /** `candidate -= c_p` followed by `candidate /= candidate.max()`. */
  function Normalised(a: seq<real>, p: real, peak: real): (r: seq<real>)
    requires peak != 0.0
    ensures |r| == |a|
  {
    seq(|a|, i requires 0 <= i < |a| => (a[i] - p) / peak)
  }

  function Shifted(a: seq<real>, p: real): (r: seq<real>)
    ensures |r| == |a|
  {
    seq(|a|, i requires 0 <= i < |a| => a[i] - p)
  }

  /** The resampled candidate rolled into place, before normalisation. */
  function Rolled(s: Setup, m: Measure): (r: seq<real>)
    requires ValidSetup(s)
    ensures |r| == s.len
  {
    Roll(Resize(m.npsf, s.len), RollAmount(m.nlocalMax, m.cof))
  }

  /** Whether the window around the stack maximum fits (`check_boundary`). */
  predicate Inside(s: Setup, m: Measure)
  {
    CheckBoundary(m.maxPos, s.field.half, ShapeOf(s.shape))
  }

  /** The candidate window, flattened; it has 2·half+1 voxels per axis. */
  function Window3(s: Setup, m: Measure): (f: seq<real>)
    requires ValidSetup(s) && Inside(s, m)
    ensures |f| > 0
  {
    var h := s.field.half;
    BoundaryCropInside(s.stack, s.shape, m.maxPos, h);
    var ws := WindowShape(s.shape, m.maxPos, h);
    PositiveProduct(ws.n0, ws.n1, ws.n2);
    Ravel(CandidateCrop(s.stack, s.shape, m.maxPos, h), ws)
  }

  /** `candidate[candidate >= 0.5*(c_mx+c_p)].size`. */
  function FwhmCount(s: Setup, m: Measure): nat
    requires ValidSetup(s) && Inside(s, m)
  {
    var w := Window3(s, m);
    CountAtLeast(w, 0.5 * (SeqMax(w) + m.p10))
  }

  /** The resampled candidate after the roll and the percentile subtraction. */
  function Lowered(s: Setup, m: Measure): (c: seq<real>)
    requires ValidSetup(s)
    ensures |c| == s.len && |c| > 0
  {
    Shifted(Rolled(s, m), m.p10)
  }

  /** `candidate /= candidate.max()`, or Flat when that maximum is zero. */
  function Rescaled(s: Setup, m: Measure): (v: Verdict)
    requires ValidSetup(s)
    ensures v.Accepted? || v.Flat?
    ensures v.Accepted? ==> |v.psf| == s.len
  {
    var c := Lowered(s, m);
    var peak := SeqMax(c);
    if peak == 0.0 then Flat else Accepted(Normalised(Rolled(s, m), m.p10, peak))
  }

  /** The body of the label loop for one label. */
  function Assess(s: Setup, m: Measure): (v: Verdict)
    requires ValidSetup(s)
    ensures v.Accepted? ==> |v.psf| == s.len
  {
    if !Inside(s, m) then Border
    else if !FwhmOk(FwhmCount(s, m), s.hwhm) then FwhmVolume
    else if DistSq(m.localMax, m.massCenter, s.voxel) > MaxDistSq then OffCentre
    else if GridDistSq(m.cof, m.nlocalMax) > 36 then Misaligned
    else Rescaled(s, m)
  }

  // ----------------------------------------------------------------- roll

  /** Rolling by `shift` is rotating left by k = (−shift) mod n. */
  lemma RollRotates(a: seq<real>, shift: int)
    requires |a| > 0
    ensures var k := (-shift) % |a|; Roll(a, shift) == a[k..] + a[..k]
  {
    var n := |a|;
    var k := (-shift) % n;
    var q := (-shift) / n;
    assert -shift == q * n + k;
    var r := Roll(a, shift);
    var t := a[k..] + a[..k];
    forall j | 0 <= j < n
      ensures r[j] == t[j]
    {
      if j + k < n {
        ModUnique(j - shift, n, q, j + k);
      } else {
        ModUnique(j - shift, n, q + 1, j + k - n);
      }
    }
  }

  /** The roll is a value-preserving permutation: element i lands at (i + shift) mod n,
      and the multiset of values is unchanged. */
  lemma RollPermutes(a: seq<real>, shift: int)
    ensures multiset(Roll(a, shift)) == multiset(a)
    ensures forall i :: 0 <= i < |a| ==> Roll(a, shift)[(i + shift) % |a|] == a[i]
  {
    var n := |a|;
    if n > 0 {
      var k := (-shift) % n;
      RollRotates(a, shift);
      assert a[..k] + a[k..] == a;
      assert multiset(a[k..] + a[..k]) == multiset(a[..k] + a[k..]);
      forall i | 0 <= i < n
        ensures Roll(a, shift)[(i + shift) % n] == a[i]
      {
        var j := (i + shift) % n;
        var q := (i + shift) / n;
        assert i + shift == q * n + j;
        ModUnique(j - shift, n, -q, i);
      }
    }
  }

  // ------------------------------------------------------------ the tally

  /** Running state of the label loop: accepted count, sum of the normalised
      candidates and the discarded labels in visiting order. */
  datatype Tally = Tally(count: nat, sum: seq<real>, discarded: seq<int>)

  function Zeros(n: nat): (z: seq<real>)
    ensures |z| == n && forall i :: 0 <= i < n ==> z[i] == 0.0
  {
    seq(n, _ => 0.0)
  }

  function AddVec(a: seq<real>, b: seq<real>): (c: seq<real>)
    requires |a| == |b|
    ensures |c| == |a| && forall i :: 0 <= i < |a| ==> c[i] == a[i] + b[i]
  {
    seq(|a|, i requires 0 <= i < |a| => a[i] + b[i])
  }

  /** Every accepted candidate has the accumulator's length. */
  predicate Sized(vs: seq<Verdict>, len: nat)
  {
    forall i :: 0 <= i < |vs| && vs[i].Accepted? ==> |vs[i].psf| == len
  }

  /** The verdict of every label, in label order (label i is measured by ms[i-1]). */
  function Verdicts(s: Setup, ms: seq<Measure>): (vs: seq<Verdict>)
    requires ValidSetup(s)
    ensures |vs| == |ms| && Sized(vs, s.len)
    ensures forall i :: 0 <= i < |ms| ==> vs[i] == Assess(s, ms[i])
  {
    seq(|ms|, i requires 0 <= i < |ms| => Assess(s, ms[i]))
  }

  /** The state after the loop has visited labels 1..|vs|. */
  function TallyOf(vs: seq<Verdict>, len: nat): (r: Result<Tally, ExtractError>)
    requires Sized(vs, len)
    ensures r.Success? ==> |r.value.sum| == len
  {
    if |vs| == 0 then Success(Tally(0, Zeros(len), []))
    else Visit(TallyOf(vs[..|vs| - 1], len), vs[|vs| - 1], |vs|, len)
  }

  /** The loop body for the verdict of one label: a discarded label is
      recorded, a misaligned one skipped, a flat one is an error, an
      accepted one is added. */
  function Visit(before: Result<Tally, ExtractError>, v: Verdict, labelNo: nat, len: nat): (after: Result<Tally, ExtractError>)
    requires before.Success? ==> |before.value.sum| == len
    requires v.Accepted? ==> |v.psf| == len
    ensures after.Success? ==> |after.value.sum| == len
  {
    match before
    case Failure(e) => Failure(e)
    case Success(t) =>
      if Discards(v) then Success(t.(discarded := t.discarded + [labelNo]))
      else if v.Misaligned? then Success(t)
      else if v.Flat? then Failure(NonFinitePeak(labelNo))
      else Success(Tally(t.count + 1, AddVec(t.sum, v.psf), t.discarded))
  }

  /** The loop over one more label visits its verdict. */
  lemma TallyOfNext(vs: seq<Verdict>, len: nat, i: nat)
    requires Sized(vs, len) && i < |vs|
    ensures TallyOf(vs[..i + 1], len) == Visit(TallyOf(vs[..i], len), vs[i], i + 1, len)
  {
    assert vs[..i + 1][..i] == vs[..i];
  }

  /** Once a prefix fails, the whole loop fails with the same error. */
  lemma {:induction false} FailureSticks(vs: seq<Verdict>, len: nat, i: nat)
    requires Sized(vs, len) && i <= |vs| && TallyOf(vs[..i], len).Failure?
    ensures TallyOf(vs, len) == TallyOf(vs[..i], len)
    decreases |vs| - i
  {
    if i < |vs| {
      assert vs[..i + 1][..i] == vs[..i];
      FailureSticks(vs, len, i + 1);
    } else {
      assert vs[..i] == vs;
    }
  }

  /** The label loop of `extract_psf`. */
  method AccumulateCandidates(s: Setup, ms: seq<Measure>) returns (r: Result<Tally, ExtractError>)
    requires ValidSetup(s)
    ensures r == TallyOf(Verdicts(s, ms), s.len)
  {
    ghost var vs := Verdicts(s, ms);
    var t := Tally(0, Zeros(s.len), []);
    var i := 0;
    while i < |ms|
      invariant 0 <= i <= |ms|
      invariant TallyOf(vs[..i], s.len) == Success(t)
    {
      var v := Assess(s, ms[i]);
      assert v == vs[i];
      TallyOfNext(vs, s.len, i);
      var next := VisitLabel(t, v, i + 1, s.len);
      if next.Failure? {
        FailureSticks(vs, s.len, i + 1);
        return next;
      }
      t := next.value;
      i := i + 1;
    }
    assert vs[..|ms|] == vs;
    r := Success(t);
  }

  /** The body of the label loop for one verdict: record a discarded label,
      skip a misaligned one, stop at a flat one, add an accepted one. */
  method VisitLabel(t: Tally, v: Verdict, labelNo: nat, len: nat) returns (r: Result<Tally, ExtractError>)
    requires |t.sum| == len && (v.Accepted? ==> |v.psf| == len)
    ensures r == Visit(Success(t), v, labelNo, len)
  {
    var count, average, discarded := t.count, t.sum, t.discarded;
    if Discards(v) {
      discarded := discarded + [labelNo];
    } else if v.Misaligned? {
    } else if v.Flat? {
      return Failure(NonFinitePeak(labelNo));
    } else {
      count := count + 1;
      average := AddVec(average, v.psf);
    }
    r := Success(Tally(count, average, discarded));
  }

  /** Exactly the labels whose candidate failed the border, FWHM or distance gate are
      discarded, in increasing order; candidates skipped by the alignment test are not. */
  lemma {:induction false} DiscardedExactly(vs: seq<Verdict>, len: nat)
    requires Sized(vs, len) && TallyOf(vs, len).Success?
    ensures forall i :: 0 <= i < |vs| ==> (i + 1 in TallyOf(vs, len).value.discarded <==> Discards(vs[i]))
    ensures forall l :: l in TallyOf(vs, len).value.discarded ==> 1 <= l <= |vs|
    ensures forall a, b :: 0 <= a < b < |TallyOf(vs, len).value.discarded| ==>
      TallyOf(vs, len).value.discarded[a] < TallyOf(vs, len).value.discarded[b]
    decreases |vs|
  {
    if |vs| > 0 {
      var p := vs[..|vs| - 1];
      DiscardedExactly(p, len);
      forall i | 0 <= i < |vs| - 1
        ensures vs[i] == p[i]
      {
      }
      var t := TallyOf(p, len).value;
      if Discards(vs[|vs| - 1]) {
        var d := t.discarded + [|vs|];
        assert TallyOf(vs, len).value.discarded == d;
        forall a, b | 0 <= a < b < |d|
          ensures d[a] < d[b]
        {
          if b == |d| - 1 {
            assert d[a] == t.discarded[a] && d[a] in t.discarded;
          }
        }
      }
    }
  }

  /** The number of candidates averaged is the number of accepted verdicts. */
  lemma {:induction false} CountIsAccepted(vs: seq<Verdict>, len: nat)
    requires Sized(vs, len) && TallyOf(vs, len).Success?
    ensures TallyOf(vs, len).value.count == |AcceptedLabels(vs)|
    decreases |vs|
  {
    if |vs| > 0 {
      var p := vs[..|vs| - 1];
      CountIsAccepted(p, len);
      assert AcceptedLabels(vs) == AcceptedLabels(p) + (if vs[|vs| - 1].Accepted? then [|vs|] else []);
    }
  }

  /** The labels (1-based) whose candidate was accepted, in order. */
  function AcceptedLabels(vs: seq<Verdict>): (ls: seq<int>)
    ensures |ls| <= |vs|
  {
    if |vs| == 0 then []
    else AcceptedLabels(vs[..|vs| - 1]) + (if vs[|vs| - 1].Accepted? then [|vs|] else [])
  }

  /** A candidate with a positive peak is scaled so that its largest value is exactly 1. */
  lemma AcceptedPeakIsOne(s: Setup, m: Measure)
    requires ValidSetup(s) && Assess(s, m).Accepted? && SeqMax(Lowered(s, m)) > 0.0
    ensures forall i :: 0 <= i < |Assess(s, m).psf| ==> Assess(s, m).psf[i] <= 1.0
    ensures exists i :: 0 <= i < |Assess(s, m).psf| && Assess(s, m).psf[i] == 1.0
  {
    var a := Rolled(s, m);
    assert Assess(s, m).psf == Normalised(a, m.p10, SeqMax(Shifted(a, m.p10)));
    NormalisedPeak(a, m.p10);
  }

  /** Shifting by p and dividing by the positive maximum of the shifted
      values puts every value at or below 1 and the maximum at exactly 1. */
  lemma NormalisedPeak(a: seq<real>, p: real)
    requires |a| > 0 && SeqMax(Shifted(a, p)) > 0.0
    ensures var r := Normalised(a, p, SeqMax(Shifted(a, p)));
            (forall i :: 0 <= i < |r| ==> r[i] <= 1.0) && (exists i :: 0 <= i < |r| && r[i] == 1.0)
  {
    var c := Shifted(a, p);
    var peak := SeqMax(c);
    var r := Normalised(a, p, peak);
    forall i | 0 <= i < |r|
      ensures r[i] <= 1.0
    {
      assert c[i] == a[i] - p && r[i] == (a[i] - p) / peak;
      DivBelow(c[i], peak);
    }
    var w :| 0 <= w < |c| && c[w] == peak;
    assert c[w] == a[w] - p && r[w] == (a[w] - p) / peak;
    DivSelf(peak);
  }

  lemma DivSelf(x: real)
    requires x != 0.0
    ensures x / x == 1.0
  {
  }

  lemma DivBelow(x: real, peak: real)
    requires peak > 0.0 && x <= peak
    ensures x / peak <= 1.0
  {
  }

  /** Every accepted candidate has values at most 1. */
  predicate AtMostOne(vs: seq<Verdict>)
  {
    forall i, j :: 0 <= i < |vs| && vs[i].Accepted? && 0 <= j < |vs[i].psf| ==> vs[i].psf[j] <= 1.0
  }

  /** Candidates whose maximum is positive after the percentile subtraction. */
  predicate PositivePeaks(s: Setup, ms: seq<Measure>)
    requires ValidSetup(s)
  {
    forall i :: 0 <= i < |ms| && Assess(s, ms[i]).Accepted? ==> SeqMax(Lowered(s, ms[i])) > 0.0
  }

  lemma PositivePeaksAtMostOne(s: Setup, ms: seq<Measure>)
    requires ValidSetup(s) && PositivePeaks(s, ms)
    ensures AtMostOne(Verdicts(s, ms))
  {
    var vs := Verdicts(s, ms);
    forall i | 0 <= i < |vs| && vs[i].Accepted?
      ensures forall j :: 0 <= j < |vs[i].psf| ==> vs[i].psf[j] <= 1.0
    {
      AcceptedPeakIsOne(s, ms[i]);
    }
  }

  /** With every candidate at most 1, each voxel of the sum is at most the number of
      candidates added. */
  lemma {:induction false} SumAtMostCount(vs: seq<Verdict>, len: nat)
    requires Sized(vs, len) && TallyOf(vs, len).Success? && AtMostOne(vs)
    ensures forall j :: 0 <= j < |TallyOf(vs, len).value.sum| ==>
      TallyOf(vs, len).value.sum[j] <= TallyOf(vs, len).value.count as real
    decreases |vs|
  {
    if |vs| > 0 {
      var p := vs[..|vs| - 1];
      assert AtMostOne(p) by {
        forall i | 0 <= i < |p| ensures p[i] == vs[i] { }
      }
      SumAtMostCount(p, len);
    }
  }

  // ----------------------------------------------------------- the result

  function Clip(x: real): (y: real)
    ensures y >= 0.0
  {
    if x < 0.0 then 0.0 else x
  }

  /** `average /= count` then `np.where(average < 0, 0, average)`. */
  function AverageOf(t: Tally): (a: seq<real>)
    requires t.count > 0
    ensures |a| == |t.sum| && forall i :: 0 <= i < |a| ==> a[i] >= 0.0
  {
    seq(|t.sum|, i requires 0 <= i < |t.sum| => Clip(t.sum[i] / t.count as real))
  }

  /** With positive peaks every voxel of the average lies in [0, 1]. */
  lemma AverageInUnitRange(s: Setup, ms: seq<Measure>)
    requires ValidSetup(s) && PositivePeaks(s, ms)
    requires TallyOf(Verdicts(s, ms), s.len).Success? && TallyOf(Verdicts(s, ms), s.len).value.count > 0
    ensures forall j :: 0 <= j < |AverageOf(TallyOf(Verdicts(s, ms), s.len).value)| ==>
      0.0 <= AverageOf(TallyOf(Verdicts(s, ms), s.len).value)[j] <= 1.0
  {
    var t := TallyOf(Verdicts(s, ms), s.len).value;
    PositivePeaksAtMostOne(s, ms);
    SumAtMostCount(Verdicts(s, ms), s.len);
    forall j | 0 <= j < |t.sum|
      ensures AverageOf(t)[j] <= 1.0
    {
      DivBelow(t.sum[j], t.count as real);
    }
  }

  /** The label map with every discarded label set to 0 and every other entry kept. */
  function Cleared(labels: seq<int>, discarded: seq<int>): (c: seq<int>)
    ensures |c| == |labels|
    ensures forall j :: 0 <= j < |labels| ==> (c[j] == 0 || c[j] == labels[j])
    ensures forall j :: 0 <= j < |labels| && labels[j] !in discarded ==> c[j] == labels[j]
  {
    seq(|labels|, j requires 0 <= j < |labels| => if labels[j] in discarded then 0 else labels[j])
  }

  /** `for i in discarded_labels: label = np.where(label == i, 0, label)`. */
  method ClearDiscarded(labels: seq<int>, discarded: seq<int>) returns (out: seq<int>)
    ensures out == Cleared(labels, discarded)
  {
    out := labels;
    var i := 0;
    while i < |discarded|
      invariant 0 <= i <= |discarded| && |out| == |labels|
      invariant forall j :: 0 <= j < |labels| ==> out[j] == (if labels[j] in discarded[..i] then 0 else labels[j])
    {
      var d := discarded[i];
      assert discarded[..i + 1] == discarded[..i] + [d];
      out := seq(|out|, j requires 0 <= j < |out| => if out[j] == d then 0 else out[j]);
      i := i + 1;
    }
    assert discarded[..i] == discarded;
    assert forall j :: 0 <= j < |labels| ==> out[j] == Cleared(labels, discarded)[j];
  }

  /** The connected-component labelling of the candidate mask (`ndimage.label`) and the
      measurements of labels 1..n. */
  datatype Labelled = Labelled(labels: seq<int>, measures: seq<Measure>)

  /** The averaged PSF (flattened), its supersampled shape, the number of candidates
      averaged, the label map without the discarded labels, and the new voxel sizes. */
  datatype Extracted = Extracted(average: seq<real>, nshape: Int3, count: nat, labels: seq<int>, nspacing: Real3)

  /** The label loop and what follows it, for the labelling of the candidate mask. */
  function Averaged(s: Setup, lab: Labelled, spacing: Real3): (r: Result<Extracted, ExtractError>)
    requires ValidSetup(s)
  {
    match TallyOf(Verdicts(s, lab.measures), s.len)
    case Failure(e) => Failure(e)
    case Success(t) =>
      if t.count == 0 then Failure(NoCandidate)
      else Success(Extracted(AverageOf(t), NShape(s.field.size), t.count, Cleared(lab.labels, t.discarded),
                             Real3(spacing.z / 3.0, spacing.y / 3.0, spacing.x / 3.0)))
  }

  /** `extract_psf` with the blurred stack, the labelling and the per-label measurements
      supplied; `hwhm` is `hwhm_volume`, `k` is `accept_as_possible_peak`. */
  function Extraction(stack: Vol3, shape: Shape3, spacing: Real3, axialRes: real, lateralRes: real,
                      hwhm: int, k: real, blurred: seq<real>, sqrt: real -> real,
                      labeller: seq<bool> -> Labelled): (r: Result<Extracted, ExtractError>)
    requires HasShape(stack, shape)
  {
    match FieldOf(spacing, axialRes, lateralRes)
    case Failure(e) => Failure(e)
    case Success(f) =>
      match BackgroundOf(blurred, k, sqrt)
      case Failure(e) => Failure(e)
      case Success(bg) =>
        if f.size.z < 0 || f.size.y < 0 || f.size.x < 0 then Failure(NegativeShape)
        else
          FieldPositive(f);
          Averaged(Setup(stack, shape, f, hwhm, spacing, SupersampledVolume(f.size)), labeller(bg.foreground), spacing)
  }

  method AverageCandidates(s: Setup, lab: Labelled, spacing: Real3) returns (r: Result<Extracted, ExtractError>)
    requires ValidSetup(s)
    ensures r == Averaged(s, lab, spacing)
  {
    var tally := AccumulateCandidates(s, lab.measures);
    if tally.Failure? {
      return Failure(tally.error);
    }
    var t := tally.value;
    if t.count == 0 {
      return Failure(NoCandidate);
    }
    var cleared := ClearDiscarded(lab.labels, t.discarded);
    r := Success(Extracted(AverageOf(t), NShape(s.field.size), t.count, cleared,
                           Real3(spacing.z / 3.0, spacing.y / 3.0, spacing.x / 3.0)));
  }

  method ExtractPsfs(stack: Vol3, shape: Shape3, spacing: Real3, axialRes: real, lateralRes: real,
                     hwhm: int, k: real, blurred: seq<real>, sqrt: real -> real,
                     labeller: seq<bool> -> Labelled) returns (r: Result<Extracted, ExtractError>)
    requires HasShape(stack, shape)
    ensures r == Extraction(stack, shape, spacing, axialRes, lateralRes, hwhm, k, blurred, sqrt, labeller)
    ensures r.Success? ==>
      BeadPsf.IsOdd(r.value.nshape.z) && BeadPsf.IsOdd(r.value.nshape.y) && BeadPsf.IsOdd(r.value.nshape.x) &&
      r.value.nshape.z >= 1 && r.value.nshape.y >= 1 && r.value.nshape.x >= 1 &&
      |r.value.average| == Product(r.value.nshape) && r.value.count >= 1 &&
      (forall j :: 0 <= j < |r.value.average| ==> r.value.average[j] >= 0.0)
  {
    var field := FieldOf(spacing, axialRes, lateralRes);
    if field.Failure? {
      return Failure(field.error);
    }
    var f := field.value;
    var bg := EstimateBackground(blurred, k, sqrt);
    if bg.Failure? {
      return Failure(bg.error);
    }
    if f.size.z < 0 || f.size.y < 0 || f.size.x < 0 {
      return Failure(NegativeShape);
    }
    FieldPositive(f);
    var lab := labeller(bg.value.foreground);
    var st := Setup(stack, shape, f, hwhm, spacing, SupersampledVolume(f.size));
    r := AverageCandidates(st, lab, spacing);
    if r.Success? {
      AveragedShape(st, lab, spacing);
      SupersampledExtent(f.size.z);
      SupersampledExtent(f.size.y);
      SupersampledExtent(f.size.x);
    }
  }

  lemma AveragedShape(s: Setup, lab: Labelled, spacing: Real3)
    requires ValidSetup(s) && Averaged(s, lab, spacing).Success?
    ensures var e := Averaged(s, lab, spacing).value;
      e.nshape == NShape(s.field.size) && |e.average| == s.len && e.count >= 1 &&
      (forall j :: 0 <= j < |e.average| ==> e.average[j] >= 0.0)
  {
  }
}
