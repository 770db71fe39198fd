/** The older bead-image PSF builder of the deconvolution package
    (`deconvolve/read_xml.py`): integer window helpers, block-average
    binning and the candidate loop of `spots2psf`. */
module ReadXml {
  import opened Wrappers
  import opened PyNum
  import opened PySlice
  import opened NdArray
  import BeadPsf

  // ------------------------------------------------------------------ odd_max

  /** `odd_max(x, y)`: y when x <= y, otherwise x rounded up to an odd number. */
  function OddMax(x: int, y: int): (r: int)
    ensures r >= x && r >= y
    ensures x <= y ==> r == y
    ensures x > y ==> BeadPsf.IsOdd(r) && r <= x + 1
  {
    if x <= y then y else if x % 2 != 0 then x else x + 1
  }

  // -------------------------------------------------------------- fix_indices

  /** How many lock-step moves `fix_indices` makes: the least t with
      i0 + t >= mn and i1 - t < mx. */
  function FixSteps(i0: int, i1: int, mn: int, mx: int): (t: nat)
    ensures i0 + t >= mn && i1 - t < mx
    ensures t > 0 ==> !(i0 + (t - 1) >= mn && i1 - (t - 1) < mx)
  {
    MaxInt(0, MaxInt(mn - i0, i1 - mx + 1))
  }

  /** The window `fix_indices` returns: both ends moved inward t times. */
  function FixedIndices(i0: int, i1: int, mn: int, mx: int): (r: (int, int))
    ensures r.0 >= mn && r.1 < mx
    ensures r.0 + r.1 == i0 + i1 && r.0 >= i0
  {
    var t := FixSteps(i0, i1, mn, mx);
    (i0 + t, i1 - t)
  }

  /** `fix_indices`: move i0 up and i1 down together until i0 >= mn and i1 < mx. */
  method FixIndices(i0: int, i1: int, mn: int, mx: int) returns (r0: int, r1: int)
    ensures (r0, r1) == FixedIndices(i0, i1, mn, mx)
  {
    r0, r1 := i0, i1;
    while !(r0 >= mn && r1 < mx)
      invariant r0 - i0 == i1 - r1
      invariant 0 <= r0 - i0 <= FixSteps(i0, i1, mn, mx)
      decreases FixSteps(i0, i1, mn, mx) - (r0 - i0)
    {
      r0 := r0 + 1;
      r1 := r1 - 1;
    }
  }

  /** A window too close to both borders comes back with i0 > i1: a bead at
      index 1 of a 3-plane stack blurred in steps of 2. */
  lemma FixIndicesCanCross()
    ensures FixedIndices(1 - 9, 1 + 9, 2, 3 - 2) == (2, 0)
  {
  }

  // ----------------------------------------------------------- expand_indices

  /** The ValueError of `expand_indices`, carrying the bounds it gave up at. */
  datatype WindowError = Unexpandable(i0: int, i1: int, shape: int, maxI: int)

  /** The widest window `expand_indices` can reach: i0 goes down to 0 at most
      (it is never moved when already <= 0), i1 goes up to max_i at most. */
  function Room(i0: int, i1: int, maxI: int): int
  {
    MaxInt(i1, maxI) - MinInt(i0, 0)
  }

  /** Closed form of `expand_indices`.  Each round moves i0 down first and then
      i1 up, so i0 takes the larger half of the missing width until one side
      runs out of room. */
  function Expanded(i0: int, i1: int, shape: int, maxI: int): (r: Result<(int, int), WindowError>)
    ensures i1 - i0 >= shape ==> r == Success((i0, i1))
    ensures r.Failure? <==> i1 - i0 < shape && Room(i0, i1, maxI) < shape
    ensures r.Failure? ==> r.error == Unexpandable(MinInt(i0, 0), MaxInt(i1, maxI), shape, maxI)
    ensures r.Success? && i1 - i0 < shape ==> r.value.1 - r.value.0 == shape
    ensures r.Success? ==> MinInt(i0, 0) <= r.value.0 <= i0 && i1 <= r.value.1 <= MaxInt(i1, maxI)
  {
    var d := shape - (i1 - i0);
    if d <= 0 then Success((i0, i1))
    else if Room(i0, i1, maxI) < shape then
      Failure(Unexpandable(MinInt(i0, 0), MaxInt(i1, maxI), shape, maxI))
    else
      var down := MaxInt(i0, 0);
      var up := MaxInt(maxI - i1, 0);
      var moved := if down < (d + 1) / 2 then down else if up < d / 2 then d - up else (d + 1) / 2;
      Success((i0 - moved, i1 + d - moved))
  }

  /** A round of `expand_indices` that lowers i0 and raises i1 keeps the
      closed form. */
  lemma ExpandBoth(lo: int, hi: int, shape: int, maxI: int)
    requires hi - lo + 1 < shape && lo > 0 && hi < maxI
    ensures Expanded(lo - 1, hi + 1, shape, maxI) == Expanded(lo, hi, shape, maxI)
  {
  }

  /** So does a round that lowers i0 alone, because that reaches the width
      or i1 cannot move. */
  lemma ExpandLow(lo: int, hi: int, shape: int, maxI: int)
    requires hi - lo < shape && lo > 0 && (hi - lo + 1 == shape || hi >= maxI)
    ensures Expanded(lo - 1, hi, shape, maxI) == Expanded(lo, hi, shape, maxI)
  {
  }

  /** So does a round that raises i1 alone once i0 is stuck. */
  lemma ExpandHigh(lo: int, hi: int, shape: int, maxI: int)
    requires hi - lo < shape && lo <= 0 && hi < maxI
    ensures Expanded(lo, hi + 1, shape, maxI) == Expanded(lo, hi, shape, maxI)
  {
  }

  /** `expand_indices`: widen [i0, i1) to `shape`, lowering i0 while it is
      positive and raising i1 while it is below max_i. */
  method ExpandIndices(i0: int, i1: int, shape: int, maxI: int) returns (r: Result<(int, int), WindowError>)
    ensures r == Expanded(i0, i1, shape, maxI)
  {
    var lo, hi := i0, i1;
    while hi - lo < shape
      invariant Expanded(lo, hi, shape, maxI) == Expanded(i0, i1, shape, maxI)
      decreases shape - (hi - lo)
    {
      if lo > 0 && hi < maxI && hi - lo + 1 < shape {
        ExpandBoth(lo, hi, shape, maxI);
      } else if lo > 0 {
        ExpandLow(lo, hi, shape, maxI);
      } else if hi < maxI {
        ExpandHigh(lo, hi, shape, maxI);
      }
      if lo > 0 {
        lo := lo - 1;
        if hi - lo == shape {
          break;
        }
      }
      if hi < maxI {
        hi := hi + 1;
      } else if hi - lo == shape {
        break;
      } else if lo > 0 {
        // the source's `pass`: i0 moved this round, try again
      } else {
        return Failure(Unexpandable(lo, hi, shape, maxI));
      }
    }
    return Success((lo, hi));
  }

  // --------------------------------------------------------------- highertype

  /** The numpy dtypes `highertype` distinguishes; every other one is `Other`. */
  datatype DType =
    | Int8 | UInt8 | Int16 | UInt16 | Int32 | UInt32 | Int64 | UInt64
    | Float32 | Float64 | Float128 | Other(name: string)

  function Bits(d: DType): nat
  {
    match d
    case Int8 => 8
    case UInt8 => 8
    case Int16 => 16
    case UInt16 => 16
    case Int32 => 32
    case UInt32 => 32
    case Int64 => 64
    case UInt64 => 64
    case Float32 => 32
    case Float64 => 64
    case Float128 => 128
    case Other(_) => 0
  }

  predicate IsFloat(d: DType) { d.Float32? || d.Float64? || d.Float128? }

  predicate IsUnsigned(d: DType) { d.UInt8? || d.UInt16? || d.UInt32? || d.UInt64? }

  /** The dtypes `highertype` widens; float64 only when numpy has float128. */
  predicate Widened(d: DType, hasFloat128: bool)
  {
    d.Int8? || d.UInt8? || d.Int16? || d.UInt16? || d.Int32? || d.UInt32? ||
    d.Float32? || (d.Float64? && hasFloat128)
  }

  /** `highertype` on a dtype: the next wider type of the same kind, or the
      dtype itself when it is not in the table. */
  function HigherType(d: DType, hasFloat128: bool): (h: DType)
    ensures Widened(d, hasFloat128) ==>
      Bits(h) == 2 * Bits(d) && IsFloat(h) == IsFloat(d) && IsUnsigned(h) == IsUnsigned(d)
    ensures !Widened(d, hasFloat128) ==> h == d
  {
    match d
    case Int8 => Int16
    case UInt8 => UInt16
    case Int16 => Int32
    case UInt16 => UInt32
    case Int32 => Int64
    case UInt32 => UInt64
    case Float32 => Float64
    case Float64 => if hasFloat128 then Float128 else d
    case _ => d
  }

  // -------------------------------------------------------- maximum_centering

  /** `min(max(v, lo), hi)`. */
  function Clamp(v: int, lo: int, hi: int): (c: int)
    ensures lo <= hi ==> lo <= c <= hi
    ensures lo <= v <= hi ==> c == v
    ensures v < lo <= hi ==> c == lo
    ensures (hi < v || hi < lo) ==> c == hi
  {
    MinInt(MaxInt(v, lo), hi)
  }

  /** A box [lo, hi) per axis: the source's (i0, i1, j0, j1, k0, k1). */
  datatype Window = Window(lo: Int3, hi: Int3)

  function Extent(w: Window): Int3
  {
    Int3(w.hi.z - w.lo.z, w.hi.y - w.lo.y, w.hi.x - w.lo.x)
  }

  /** What `maximum_centering` measures on the box-blurred crop: the shape of the
      valid convolution, its maximum position and the centre of mass of its
      squared excess over the minimum. */
  datatype Smoothing = Smoothing(shape: Int3, maxPos: Int3, massCentre: Real3)

  /** The two messages of `maximum_centering`. */
  datatype CentreMsg = TooSmall(got: Int3, want: Int3) | TooFar(distSq: real)

  /** `mx_dist`: largest accepted distance, in voxels, between maximum and centre of mass. */
  const MaxDist := 3

  function CentreDistSq(sm: Smoothing): (d: real)
    ensures d >= 0.0
  {
    Sq(sm.maxPos.z as real - sm.massCentre.z) + Sq(sm.maxPos.y as real - sm.massCentre.y)
      + Sq(sm.maxPos.x as real - sm.massCentre.x)
  }

  /** Both bounds of an axis shifted so the smoothed maximum sits at the centre. */
  function Shift(size: int, maxPos: int): int { size / 2 - maxPos }

  function Recentred(w: Window, sm: Smoothing): (c: Window)
    ensures Extent(c) == Extent(w)
  {
    var dz, dy, dx := Shift(sm.shape.z, sm.maxPos.z), Shift(sm.shape.y, sm.maxPos.y), Shift(sm.shape.x, sm.maxPos.x);
    Window(Int3(w.lo.z - dz, w.lo.y - dy, w.lo.x - dx), Int3(w.hi.z - dz, w.hi.y - dy, w.hi.x - dx))
  }

  /** Every bound of w lies within the corresponding range [range.lo, range.hi]. */
  predicate WithinRange(w: Window, range: Window)
  {
    range.lo.z <= w.lo.z <= range.hi.z && range.lo.z <= w.hi.z <= range.hi.z &&
    range.lo.y <= w.lo.y <= range.hi.y && range.lo.y <= w.hi.y <= range.hi.y &&
    range.lo.x <= w.lo.x <= range.hi.x && range.lo.x <= w.hi.x <= range.hi.x
  }

  predicate ValidRange(range: Window)
  {
    range.lo.z <= range.hi.z && range.lo.y <= range.hi.y && range.lo.x <= range.hi.x
  }

  function Clamped(w: Window, range: Window): (c: Window)
    ensures ValidRange(range) ==> WithinRange(c, range)
    ensures WithinRange(w, range) ==> c == w
  {
    Window(Int3(Clamp(w.lo.z, range.lo.z, range.hi.z), Clamp(w.lo.y, range.lo.y, range.hi.y),
                Clamp(w.lo.x, range.lo.x, range.hi.x)),
           Int3(Clamp(w.hi.z, range.lo.z, range.hi.z), Clamp(w.hi.y, range.lo.y, range.hi.y),
                Clamp(w.hi.x, range.lo.x, range.hi.x)))
  }

  /** `maximum_centering`: the recentred window with its six bounds clamped into
      the ranges, and a message unless it has exactly the PSF shape and its
      maximum is within `MaxDist` voxels of the centre of mass. */
  function MaximumCentering(w: Window, sm: Smoothing, s: Int3, range: Window): (r: (Window, Option<CentreMsg>))
    ensures ValidRange(range) ==> WithinRange(r.0, range)
    ensures WithinRange(Recentred(w, sm), range) ==> r.0 == Recentred(w, sm)
    ensures r.1.Some? && r.1.value.TooSmall? <==> Extent(r.0) != s
    ensures r.1.Some? && r.1.value.TooFar? <==> Extent(r.0) == s && CentreDistSq(sm) > (MaxDist * MaxDist) as real
    ensures r.1.None? ==> Extent(r.0) == s
  {
    var c := Clamped(Recentred(w, sm), range);
    if Extent(c) != s then (c, Some(TooSmall(Extent(c), s)))
    else if CentreDistSq(sm) > (MaxDist * MaxDist) as real then (c, Some(TooFar(CentreDistSq(sm))))
    else (c, None)
  }

  // ------------------------------------------------------------------ binning

  /** The optical parameters `spots2psf` reads from the stack's metadata:
      excitation wavelength in nanometres, numerical aperture, voxel sizes in metres. */
  datatype Optics = Optics(excitation: real, na: real, voxel: Real3)

  datatype SpotError = ZeroDivision | NoRoom(cause: WindowError) | EmptyCandidate(window: Window)

  /** `max(1, int(x))`: a blur step of at least one voxel. */
  function BlurStep(x: real): (n: int)
    ensures n >= 1
    ensures x >= 1.0 ==> n as real <= x < n as real + 1.0
  {
    MaxInt(1, Trunc(x))
  }

  /** Confocal lateral and axial resolution, in metres. */
  function LateralResolution(o: Optics): real
    requires o.na != 0.0
  {
    o.excitation / (2.0 * o.na) * 0.000000001
  }

  function AxialResolution(o: Optics): real
    requires o.na != 0.0
  {
    2.0 * o.excitation / (o.na * o.na) * 0.000000001
  }

  /** Blur steps (nz, ny, nx): a resolution in voxels along each axis, at least 1.
      A zero aperture or voxel size is a division by zero. */
  function BlurSteps(o: Optics): (r: Result<Int3, SpotError>)
    ensures r.Failure? <==> o.na == 0.0 || o.voxel.z == 0.0 || o.voxel.y == 0.0 || o.voxel.x == 0.0
    ensures r.Success? ==> r.value.z >= 1 && r.value.y >= 1 && r.value.x >= 1
  {
    if o.na == 0.0 || o.voxel.z == 0.0 || o.voxel.y == 0.0 || o.voxel.x == 0.0 then Failure(ZeroDivision)
    else
      Success(Int3(BlurStep(AxialResolution(o) / o.voxel.z / 1.0),
                   BlurStep(LateralResolution(o) / o.voxel.y / 1.0),
                   BlurStep(LateralResolution(o) / o.voxel.x / 1.0)))
  }

  predicate PositiveSteps(n: Int3) { n.z >= 1 && n.y >= 1 && n.x >= 1 }

  /** Extent of the blurred stack: `int(m / n)` per axis. */
  function BinnedShape(s: Shape3, n: Int3): (b: Shape3)
    requires PositiveSteps(n)
  {
    Shape3(s.n0 / n.z, s.n1 / n.y, s.n2 / n.x)
  }

  /** Block a of a binned axis ends inside the original axis. */
  lemma BlockEnd(a: int, m: int, n: int, size: nat)
    requires 0 <= a < m && n >= 1 && m == size / n
    ensures 0 <= a * n && a * n + n <= size
  {
    assert a * n <= (m - 1) * n by {
      assert (m - 1 - a) * n >= 0;
    }
    assert m * n <= size;
  }

  /** First index of block a along an axis of the original stack. */
  function Origin(a: nat, n: int, size: nat): (o: nat)
    requires n >= 1 && a < size / n
    ensures o == a * n && o + n <= size
  {
    BlockEnd(a, size / n, n, size);
    a * n
  }

  /** The block of voxel (a, b, c) of the blurred stack: n.z x n.y x n.x voxels
      of the original one. */
  function Block(img: Vol3, s: Shape3, n: Int3, a: nat, b: nat, c: nat): (blk: Vol3)
    requires HasShape(img, s) && PositiveSteps(n)
    requires a < s.n0 / n.z && b < s.n1 / n.y && c < s.n2 / n.x
    ensures HasShape(blk, Shape3(n.z, n.y, n.x))
    ensures forall i, j, k :: 0 <= i < n.z && 0 <= j < n.y && 0 <= k < n.x ==>
      blk[i][j][k] == img[Origin(a, n.z, s.n0) + i][Origin(b, n.y, s.n1) + j][Origin(c, n.x, s.n2) + k]
  {
    var z0, y0, x0 := Origin(a, n.z, s.n0), Origin(b, n.y, s.n1), Origin(c, n.x, s.n2);
    seq(n.z, i requires 0 <= i < n.z =>
      seq(n.y, j requires 0 <= j < n.y =>
        seq(n.x, k requires 0 <= k < n.x => img[z0 + i][y0 + j][x0 + k])))
  }

  function BlockSize(n: Int3): (v: nat)
    requires PositiveSteps(n)
    ensures v >= 1
  {
    Volume(Shape3(n.z, n.y, n.x))
  }

  /** The mean of the samples of one block. */
  function BlockMean(img: Vol3, s: Shape3, n: Int3, a: nat, b: nat, c: nat): real
    requires HasShape(img, s) && PositiveSteps(n)
    requires a < s.n0 / n.z && b < s.n1 / n.y && c < s.n2 / n.x
  {
    Sum(Ravel(Block(img, s, n, a, b, c), Shape3(n.z, n.y, n.x))) / BlockSize(n) as real
  }

  /** The blurred stack as the mean of each block. */
  function Binned(img: Vol3, s: Shape3, n: Int3): (r: Vol3)
    requires HasShape(img, s) && PositiveSteps(n)
    ensures HasShape(r, BinnedShape(s, n))
    ensures forall a, b, c :: 0 <= a < s.n0 / n.z && 0 <= b < s.n1 / n.y && 0 <= c < s.n2 / n.x ==>
      r[a][b][c] == BlockMean(img, s, n, a, b, c)
  {
    var m := BinnedShape(s, n);
    seq(m.n0, a requires 0 <= a < m.n0 =>
      seq(m.n1, b requires 0 <= b < m.n1 =>
        seq(m.n2, c requires 0 <= c < m.n2 => BlockMean(img, s, n, a, b, c))))
  }

  /** `image[i:nz*mz:nz, j:ny*my:ny, k:nx*mx:nx]`: sample (i, j, k) of every block. */
  function Strided(img: Vol3, s: Shape3, n: Int3, i: nat, j: nat, k: nat): (r: Vol3)
    requires HasShape(img, s) && PositiveSteps(n) && i < n.z && j < n.y && k < n.x
    ensures HasShape(r, BinnedShape(s, n))
    ensures forall a, b, c :: 0 <= a < s.n0 / n.z && 0 <= b < s.n1 / n.y && 0 <= c < s.n2 / n.x ==>
      r[a][b][c] == Block(img, s, n, a, b, c)[i][j][k]
  {
    var m := BinnedShape(s, n);
    seq(m.n0, a requires 0 <= a < m.n0 =>
      seq(m.n1, b requires 0 <= b < m.n1 =>
        seq(m.n2, c requires 0 <= c < m.n2 =>
          img[Origin(a, n.z, s.n0) + i][Origin(b, n.y, s.n1) + j][Origin(c, n.x, s.n2) + k])))
  }

  function ZeroVolume(s: Shape3): (z: Vol3)
    ensures HasShape(z, s)
    ensures forall a, b, c :: 0 <= a < s.n0 && 0 <= b < s.n1 && 0 <= c < s.n2 ==> z[a][b][c] == 0.0
  {
    seq(s.n0, a => seq(s.n1, b => seq(s.n2, c => 0.0)))
  }

  /** numpy's `u + v` on two arrays of one shape. */
  function AddVolume(u: Vol3, v: Vol3, s: Shape3): (w: Vol3)
    requires HasShape(u, s) && HasShape(v, s)
    ensures HasShape(w, s)
    ensures forall a, b, c :: 0 <= a < s.n0 && 0 <= b < s.n1 && 0 <= c < s.n2 ==>
      w[a][b][c] == u[a][b][c] + v[a][b][c]
  {
    seq(s.n0, a requires 0 <= a < s.n0 =>
      seq(s.n1, b requires 0 <= b < s.n1 =>
        seq(s.n2, c requires 0 <= c < s.n2 => u[a][b][c] + v[a][b][c])))
  }

  /** numpy's `u / d` for a scalar d. */
  function DivVolume(u: Vol3, s: Shape3, d: real): (w: Vol3)
    requires HasShape(u, s) && d != 0.0
    ensures HasShape(w, s)
    ensures forall a, b, c :: 0 <= a < s.n0 && 0 <= b < s.n1 && 0 <= c < s.n2 ==> w[a][b][c] == u[a][b][c] / d
  {
    seq(s.n0, a requires 0 <= a < s.n0 =>
      seq(s.n1, b requires 0 <= b < s.n1 =>
        seq(s.n2, c requires 0 <= c < s.n2 => u[a][b][c] / d)))
  }

  /** Two arrays of one shape with equal voxels are equal. */
  lemma SameVolume(u: Vol3, v: Vol3, s: Shape3)
    requires HasShape(u, s) && HasShape(v, s)
    requires forall a, b, c :: 0 <= a < s.n0 && 0 <= b < s.n1 && 0 <= c < s.n2 ==> u[a][b][c] == v[a][b][c]
    ensures u == v
  {
    forall a | 0 <= a < s.n0 ensures u[a] == v[a] {
      forall b | 0 <= b < s.n1 ensures u[a][b] == v[a][b] {
        assert forall c :: 0 <= c < s.n2 ==> u[a][b][c] == v[a][b][c];
      }
    }
  }

  lemma PrefixSumStep(row: seq<real>, k: nat)
    requires k < |row|
    ensures Sum(row[..k + 1]) == Sum(row[..k]) + row[k]
  {
    assert row[..k + 1][..k] == row[..k];
  }

  /** The innermost blurring loop: adds the samples (i, j, 0..nx) of every block. */
  method AddRowSamples(acc: Vol3, img: Vol3, s: Shape3, n: Int3, i: nat, j: nat) returns (out: Vol3)
    requires HasShape(img, s) && PositiveSteps(n) && i < n.z && j < n.y
    requires HasShape(acc, BinnedShape(s, n))
    ensures HasShape(out, BinnedShape(s, n))
    ensures forall a, b, c :: 0 <= a < s.n0 / n.z && 0 <= b < s.n1 / n.y && 0 <= c < s.n2 / n.x ==>
      out[a][b][c] == acc[a][b][c] + Sum(Block(img, s, n, a, b, c)[i][j])
  {
    var m := BinnedShape(s, n);
    out := acc;
    for k := 0 to n.x
      invariant HasShape(out, m)
      invariant forall a, b, c :: 0 <= a < m.n0 && 0 <= b < m.n1 && 0 <= c < m.n2 ==>
        out[a][b][c] == acc[a][b][c] + Sum(Block(img, s, n, a, b, c)[i][j][..k])
    {
      out := AddVolume(out, Strided(img, s, n, i, j, k), m);
      forall a, b, c | 0 <= a < m.n0 && 0 <= b < m.n1 && 0 <= c < m.n2
        ensures out[a][b][c] == acc[a][b][c] + Sum(Block(img, s, n, a, b, c)[i][j][..k + 1])
      {
        PrefixSumStep(Block(img, s, n, a, b, c)[i][j], k);
      }
    }
    forall a, b, c | 0 <= a < m.n0 && 0 <= b < m.n1 && 0 <= c < m.n2
      ensures out[a][b][c] == acc[a][b][c] + Sum(Block(img, s, n, a, b, c)[i][j])
    {
      var blk := Block(img, s, n, a, b, c);
      assert blk[i][j][..n.x] == blk[i][j];
    }
  }

  /** Every voxel of `out` holds its value in `acc` plus the first j rows of
      plane i of its block. */
  ghost predicate RowsAdded(out: Vol3, acc: Vol3, img: Vol3, s: Shape3, n: Int3, i: nat, j: nat)
    requires HasShape(img, s) && PositiveSteps(n) && i < n.z && j <= n.y
    requires HasShape(acc, BinnedShape(s, n))
  {
    var m := BinnedShape(s, n);
    HasShape(out, m) &&
    forall a, b, c :: 0 <= a < m.n0 && 0 <= b < m.n1 && 0 <= c < m.n2 ==>
      out[a][b][c] == acc[a][b][c] + Sum(RavelPlane(Block(img, s, n, a, b, c)[i], n.y, n.x, j))
  }

  /** Adding the samples of row j extends the sums by that row. */
  lemma RowsAddedStep(prev: Vol3, out: Vol3, acc: Vol3, img: Vol3, s: Shape3, n: Int3, i: nat, j: nat)
    requires HasShape(img, s) && PositiveSteps(n) && i < n.z && j < n.y
    requires HasShape(acc, BinnedShape(s, n)) && RowsAdded(prev, acc, img, s, n, i, j)
    requires HasShape(out, BinnedShape(s, n))
    requires forall a, b, c :: 0 <= a < s.n0 / n.z && 0 <= b < s.n1 / n.y && 0 <= c < s.n2 / n.x ==>
      out[a][b][c] == prev[a][b][c] + Sum(Block(img, s, n, a, b, c)[i][j])
    ensures RowsAdded(out, acc, img, s, n, i, j + 1)
  {
    var m := BinnedShape(s, n);
    forall a, b, c | 0 <= a < m.n0 && 0 <= b < m.n1 && 0 <= c < m.n2
      ensures out[a][b][c] == acc[a][b][c] + Sum(RavelPlane(Block(img, s, n, a, b, c)[i], n.y, n.x, j + 1))
    {
      var blk := Block(img, s, n, a, b, c);
      SumAppend(RavelPlane(blk[i], n.y, n.x, j), blk[i][j]);
    }
  }

  /** The middle blurring loop: adds the samples (i, 0..ny, 0..nx) of every block. */
  method AddPlaneSamples(acc: Vol3, img: Vol3, s: Shape3, n: Int3, i: nat) returns (out: Vol3)
    requires HasShape(img, s) && PositiveSteps(n) && i < n.z
    requires HasShape(acc, BinnedShape(s, n))
    ensures HasShape(out, BinnedShape(s, n))
    ensures forall a, b, c :: 0 <= a < s.n0 / n.z && 0 <= b < s.n1 / n.y && 0 <= c < s.n2 / n.x ==>
      out[a][b][c] == acc[a][b][c] + Sum(RavelPlane(Block(img, s, n, a, b, c)[i], n.y, n.x, n.y))
  {
    out := acc;
    for j := 0 to n.y
      invariant RowsAdded(out, acc, img, s, n, i, j)
    {
      var next := AddRowSamples(out, img, s, n, i, j);
      RowsAddedStep(out, next, acc, img, s, n, i, j);
      out := next;
    }
  }

  /** Every voxel of `v` holds the sum of the first i planes of its block. */
  ghost predicate SummedPlanes(v: Vol3, img: Vol3, s: Shape3, n: Int3, i: nat)
    requires HasShape(img, s) && PositiveSteps(n) && i <= n.z
  {
    var m := BinnedShape(s, n);
    HasShape(v, m) &&
    forall a, b, c :: 0 <= a < m.n0 && 0 <= b < m.n1 && 0 <= c < m.n2 ==>
      v[a][b][c] == Sum(RavelRows(Block(img, s, n, a, b, c), Shape3(n.z, n.y, n.x), i))
  }

  /** Adding the samples of plane i extends the sums by that plane. */
  lemma SummedPlanesStep(acc: Vol3, out: Vol3, img: Vol3, s: Shape3, n: Int3, i: nat)
    requires HasShape(img, s) && PositiveSteps(n) && i < n.z
    requires SummedPlanes(acc, img, s, n, i) && HasShape(out, BinnedShape(s, n))
    requires forall a, b, c :: 0 <= a < s.n0 / n.z && 0 <= b < s.n1 / n.y && 0 <= c < s.n2 / n.x ==>
      out[a][b][c] == acc[a][b][c] + Sum(RavelPlane(Block(img, s, n, a, b, c)[i], n.y, n.x, n.y))
    ensures SummedPlanes(out, img, s, n, i + 1)
  {
    var m := BinnedShape(s, n);
    var sh := Shape3(n.z, n.y, n.x);
    forall a, b, c | 0 <= a < m.n0 && 0 <= b < m.n1 && 0 <= c < m.n2
      ensures out[a][b][c] == Sum(RavelRows(Block(img, s, n, a, b, c), sh, i + 1))
    {
      var blk := Block(img, s, n, a, b, c);
      SumAppend(RavelRows(blk, sh, i), RavelPlane(blk[i], n.y, n.x, n.y));
    }
  }

  /** Dividing the full block sums by the block size gives the binned volume. */
  lemma SummedPlanesMean(v: Vol3, img: Vol3, s: Shape3, n: Int3)
    requires HasShape(img, s) && PositiveSteps(n) && SummedPlanes(v, img, s, n, n.z)
    ensures DivVolume(v, BinnedShape(s, n), BlockSize(n) as real) == Binned(img, s, n)
  {
    var m := BinnedShape(s, n);
    var sh := Shape3(n.z, n.y, n.x);
    forall a, b, c | 0 <= a < m.n0 && 0 <= b < m.n1 && 0 <= c < m.n2
      ensures RavelRows(Block(img, s, n, a, b, c), sh, n.z) == Ravel(Block(img, s, n, a, b, c), sh)
    {
    }
    SameVolume(DivVolume(v, m, BlockSize(n) as real), Binned(img, s, n), m);
  }

  /** The blurring loop of `spots2psf`: the strided slices of every in-block
      offset (i, j, k) are added up, then divided by the block size, so each
      voxel of the result is the mean of its block. */
  method Bin(img: Vol3, s: Shape3, n: Int3) returns (blurred: Vol3)
    requires HasShape(img, s) && PositiveSteps(n)
    ensures blurred == Binned(img, s, n)
  {
    var m := BinnedShape(s, n);
    blurred := ZeroVolume(m);
    for i := 0 to n.z
      invariant SummedPlanes(blurred, img, s, n, i)
    {
      var next := AddPlaneSamples(blurred, img, s, n, i);
      SummedPlanesStep(blurred, next, img, s, n, i);
      blurred := next;
    }
    SummedPlanesMean(blurred, img, s, n);
    blurred := DivVolume(blurred, m, BlockSize(n) as real);
  }

  lemma BlockWithin(img: Vol3, s: Shape3, n: Int3, a: nat, b: nat, c: nat, lo: real, hi: real)
    requires HasShape(img, s) && PositiveSteps(n) && VoxelsWithin(img, s, lo, hi)
    requires a < s.n0 / n.z && b < s.n1 / n.y && c < s.n2 / n.x
    ensures VoxelsWithin(Block(img, s, n, a, b, c), Shape3(n.z, n.y, n.x), lo, hi)
  {
  }

  /** A mean of values in [lo, hi] lies in [lo, hi]. */
  lemma MeanWithin(f: seq<real>, lo: real, hi: real)
    requires |f| >= 1 && forall t :: 0 <= t < |f| ==> lo <= f[t] <= hi
    ensures lo <= Sum(f) / |f| as real <= hi
  {
    SumBounds(f, lo, hi);
    BeadPsf.DivBetween(Sum(f), |f| as real, lo, hi);
  }

  /** The mean of a block lies within the range of the original intensities. */
  lemma BlockMeanWithin(img: Vol3, s: Shape3, n: Int3, a: nat, b: nat, c: nat, lo: real, hi: real)
    requires HasShape(img, s) && PositiveSteps(n) && VoxelsWithin(img, s, lo, hi)
    requires a < s.n0 / n.z && b < s.n1 / n.y && c < s.n2 / n.x
    ensures lo <= BlockMean(img, s, n, a, b, c) <= hi
  {
    var sh := Shape3(n.z, n.y, n.x);
    var blk := Block(img, s, n, a, b, c);
    BlockWithin(img, s, n, a, b, c, lo, hi);
    RavelWithin(blk, sh, n.z, lo, hi);
    MeanWithin(Ravel(blk, sh), lo, hi);
  }

  /** Blurring never leaves the range of the original intensities. */
  lemma BinnedWithin(img: Vol3, s: Shape3, n: Int3, lo: real, hi: real)
    requires HasShape(img, s) && PositiveSteps(n) && VoxelsWithin(img, s, lo, hi)
    ensures VoxelsWithin(Binned(img, s, n), BinnedShape(s, n), lo, hi)
  {
    var m := BinnedShape(s, n);
    forall a, b, c | 0 <= a < m.n0 && 0 <= b < m.n1 && 0 <= c < m.n2
      ensures lo <= Binned(img, s, n)[a][b][c] <= hi
    {
      BlockMeanWithin(img, s, n, a, b, c, lo, hi);
    }
  }

  // ------------------------------------------------------- candidate windows

  /** Python 2's `round`: nearest integer, halves away from zero. */
  function RoundHalfAway(x: real): (r: int)
    ensures Abs(r as real - x) <= 0.5
    ensures Abs(r as real - x) == 0.5 ==> Abs(r as real) > Abs(x)
  {
    if x >= 0.0 then (x + 0.5).Floor else -((-x + 0.5).Floor)
  }

  /** Python 2 rounds 2.5 to 3 where numpy and Python 3 give 2. */
  lemma RoundingDiffers()
    ensures RoundHalfAway(2.5) == 3 && RoundHalfEven(2.5) == 2
  {
  }

  function Scaled(x: real, n: int): real { x * n as real }

  /** `field_size`: a candidate window spans 9 blur steps. */
  const FieldSize := 9

  /** Half-width of a candidate window along an axis with blur step n. */
  function FieldHalf(n: int): int { n * FieldSize / 2 }

  /** The window of one axis: centred on the rounded cluster centre, then
      pulled inside [n, size - n) by `fix_indices`. */
  function AxisWindow(centre: real, n: int, size: int): (r: (int, int))
    ensures r.0 >= n && r.1 < size - n
    ensures r.0 + r.1 == 2 * RoundHalfAway(Scaled(centre, n))
  {
    var c := RoundHalfAway(Scaled(centre, n));
    FixedIndices(c - FieldHalf(n), c + FieldHalf(n), n, size - n)
  }

  /** The slice tuple a cluster centre (in blurred-stack coordinates) contributes to `psf_slice_list`. */
  function ClusterWindow(centre: Real3, n: Int3, s: Shape3): (w: Window)
  {
    var z, y, x := AxisWindow(centre.z, n.z, s.n0), AxisWindow(centre.y, n.y, s.n1), AxisWindow(centre.x, n.x, s.n2);
    Window(Int3(z.0, y.0, x.0), Int3(z.1, y.1, x.1))
  }

  function Windows(centres: seq<Real3>, n: Int3, s: Shape3): (ws: seq<Window>)
    ensures |ws| == |centres|
    ensures forall i :: 0 <= i < |ws| ==> ws[i] == ClusterWindow(centres[i], n, s)
  {
    seq(|centres|, i requires 0 <= i < |centres| => ClusterWindow(centres[i], n, s))
  }

  predicate ZeroOrOdd(v: int) { v == 0 || BeadPsf.IsOdd(v) }

  /** `psf_shape`, folded over the windows with `odd_max` from (0, 0, 0). */
  function PsfShapeOf(ws: seq<Window>): (p: Int3)
    ensures p.z >= 0 && p.y >= 0 && p.x >= 0
    ensures ZeroOrOdd(p.z) && ZeroOrOdd(p.y) && ZeroOrOdd(p.x)
  {
    if |ws| == 0 then Int3(0, 0, 0)
    else
      var q := PsfShapeOf(ws[..|ws| - 1]);
      var e := Extent(ws[|ws| - 1]);
      Int3(OddMax(e.z, q.z), OddMax(e.y, q.y), OddMax(e.x, q.x))
  }

  /** One more window enlarges the PSF shape to cover its extent. */
  lemma PsfShapeOfAppend(ws: seq<Window>, w: Window)
    ensures var e, p := Extent(w), PsfShapeOf(ws);
            PsfShapeOf(ws + [w]) == Int3(OddMax(e.z, p.z), OddMax(e.y, p.y), OddMax(e.x, p.x))
  {
    assert (ws + [w])[..|ws|] == ws;
  }

  predicate Covers(p: Int3, w: Window)
  {
    Extent(w).z <= p.z && Extent(w).y <= p.y && Extent(w).x <= p.x
  }

  /** The PSF shape is at least as large as every candidate window. */
  lemma {:induction false} PsfShapeCovers(ws: seq<Window>)
    ensures forall i :: 0 <= i < |ws| ==> Covers(PsfShapeOf(ws), ws[i])
  {
    if |ws| > 0 {
      var front := ws[..|ws| - 1];
      PsfShapeCovers(front);
      forall i | 0 <= i < |ws| - 1 ensures Covers(PsfShapeOf(ws), ws[i]) {
        assert ws[i] == front[i];
      }
    }
  }

  /** The body of the first loop: round the centre, open a window of
      `FieldSize` blur steps around it and fix it into the stack. */
  method FixClusterWindow(c: Real3, n: Int3, s: Shape3) returns (w: Window)
    ensures w == ClusterWindow(c, n, s)
  {
    var cz, cy, cx := RoundHalfAway(Scaled(c.z, n.z)), RoundHalfAway(Scaled(c.y, n.y)), RoundHalfAway(Scaled(c.x, n.x));
    var i0, i1 := FixIndices(cz - FieldHalf(n.z), cz + FieldHalf(n.z), n.z, s.n0 - n.z);
    var j0, j1 := FixIndices(cy - FieldHalf(n.y), cy + FieldHalf(n.y), n.y, s.n1 - n.y);
    var k0, k1 := FixIndices(cx - FieldHalf(n.x), cx + FieldHalf(n.x), n.x, s.n2 - n.x);
    w := Window(Int3(i0, j0, k0), Int3(i1, j1, k1));
  }

  /** The first loop of `spots2psf`: one fixed window per cluster and the
      running PSF shape. */
  method ClusterWindows(centres: seq<Real3>, n: Int3, s: Shape3) returns (ws: seq<Window>, p: Int3)
    ensures |ws| == |centres| && p == PsfShapeOf(ws)
    ensures forall i :: 0 <= i < |ws| ==> ws[i] == ClusterWindow(centres[i], n, s)
  {
    ws, p := [], Int3(0, 0, 0);
    for t := 0 to |centres|
      invariant |ws| == t && p == PsfShapeOf(ws)
      invariant forall i :: 0 <= i < t ==> ws[i] == ClusterWindow(centres[i], n, s)
    {
      var w := FixClusterWindow(centres[t], n, s);
      var e := Extent(w);
      PsfShapeOfAppend(ws, w);
      ghost var ws0 := ws;
      ws := ws + [w];
      forall i | 0 <= i < t ensures ws[i] == ClusterWindow(centres[i], n, s) {
        assert ws[i] == ws0[i];
      }
      p := Int3(OddMax(e.z, p.z), OddMax(e.y, p.y), OddMax(e.x, p.x));
    }
  }

  // --------------------------------------------------------- candidate phase

  /** The three `expand_indices` calls of one candidate, z first. */
  function ExpandedWindow(w: Window, p: Int3, s: Shape3): (r: Result<Window, WindowError>)
    ensures r.Success? && Covers(p, w) ==> Extent(r.value) == p
    ensures r.Success? ==> r.value.lo.z <= w.lo.z && r.value.lo.y <= w.lo.y && r.value.lo.x <= w.lo.x
  {
    match Expanded(w.lo.z, w.hi.z, p.z, s.n0 - 1)
    case Failure(e) => Failure(e)
    case Success(z) =>
      match Expanded(w.lo.y, w.hi.y, p.y, s.n1 - 1)
      case Failure(e) => Failure(e)
      case Success(y) =>
        match Expanded(w.lo.x, w.hi.x, p.x, s.n2 - 1)
        case Failure(e) => Failure(e)
        case Success(x) => Success(Window(Int3(z.0, y.0, x.0), Int3(z.1, y.1, x.1)))
  }

  method ExpandWindow(w: Window, p: Int3, s: Shape3) returns (r: Result<Window, WindowError>)
    ensures r == ExpandedWindow(w, p, s)
  {
    var z := ExpandIndices(w.lo.z, w.hi.z, p.z, s.n0 - 1);
    if z.Failure? {
      return Failure(z.error);
    }
    var y := ExpandIndices(w.lo.y, w.hi.y, p.y, s.n1 - 1);
    if y.Failure? {
      return Failure(y.error);
    }
    var x := ExpandIndices(w.lo.x, w.hi.x, p.x, s.n2 - 1);
    if x.Failure? {
      return Failure(x.error);
    }
    return Success(Window(Int3(z.value.0, y.value.0, x.value.0), Int3(z.value.1, y.value.1, x.value.1)));
  }

  /** The ranges `spots2psf` passes to `maximum_centering`: the whole stack. */
  function FullRange(s: Shape3): Window
  {
    Window(Int3(0, 0, 0), ShapeOf(s))
  }

  predicate NonEmpty(c: Window)
  {
    Extent(c).z > 0 && Extent(c).y > 0 && Extent(c).x > 0
  }

  /** `image[i0m:i1m, j0m:j1m, k0m:k1m]` for a window inside the stack. */
  function CropWindow(img: Vol3, s: Shape3, c: Window): (v: Vol3)
    requires HasShape(img, s) && WithinRange(c, FullRange(s)) && NonEmpty(c)
    ensures HasShape(v, Shape3(Extent(c).z, Extent(c).y, Extent(c).x))
    ensures forall i, j, k :: 0 <= i < Extent(c).z && 0 <= j < Extent(c).y && 0 <= k < Extent(c).x ==>
      v[i][j][k] == img[c.lo.z + i][c.lo.y + j][c.lo.x + k]
  {
    Crop(img, s, Range(Some(c.lo.z), Some(c.hi.z)), Range(Some(c.lo.y), Some(c.hi.y)), Range(Some(c.lo.x), Some(c.hi.x)))
  }

  function AsShape(p: Int3): Shape3
    requires p.z >= 0 && p.y >= 0 && p.x >= 0
  {
    Shape3(p.z, p.y, p.x)
  }

  /** One candidate: expanded, centred on its smoothed maximum and clamped into
      the stack.  An empty crop makes `normalize_uint8` fail on `min()`; a
      message skips the candidate; otherwise the crop is what gets added. */
  function CandidateOf(img: Vol3, s: Shape3, p: Int3, w: Window, smooth: Window -> Smoothing): (r: Result<Option<Vol3>, SpotError>)
    requires HasShape(img, s) && p.z >= 0 && p.y >= 0 && p.x >= 0
    ensures r.Success? && r.value.Some? ==> HasShape(r.value.value, AsShape(p))
  {
    match ExpandedWindow(w, p, s)
    case Failure(e) => Failure(NoRoom(e))
    case Success(e) =>
      var (c, msg) := MaximumCentering(e, smooth(e), p, FullRange(s));
      if !NonEmpty(c) then Failure(EmptyCandidate(c))
      else if msg.Some? then Success(None)
      else Success(Some(CropWindow(img, s, c)))
  }

  /** What the candidate loop accumulates: `psf_sum` and `nof_measurments`. */
  datatype PsfTotal = PsfTotal(sum: Vol3, count: nat)

  /** The outcome of every candidate, in window order. */
  function Candidates(img: Vol3, s: Shape3, p: Int3, ws: seq<Window>, smooth: Window -> Smoothing)
    : (cs: seq<Result<Option<Vol3>, SpotError>>)
    requires HasShape(img, s) && p.z >= 0 && p.y >= 0 && p.x >= 0
    ensures |cs| == |ws|
    ensures forall i :: 0 <= i < |ws| ==> cs[i] == CandidateOf(img, s, p, ws[i], smooth)
  {
    seq(|ws|, i requires 0 <= i < |ws| => CandidateOf(img, s, p, ws[i], smooth))
  }

  /** Every crop a candidate contributes has the PSF shape. */
  predicate Fitting(cs: seq<Result<Option<Vol3>, SpotError>>, p: Shape3)
  {
    forall i :: 0 <= i < |cs| && cs[i].Success? && cs[i].value.Some? ==> HasShape(cs[i].value.value, p)
  }

  /** The candidate loop over the outcomes: stop at the first error, skip a
      message, add a crop. */
  function TallyOf(cs: seq<Result<Option<Vol3>, SpotError>>, p: Shape3): (r: Result<PsfTotal, SpotError>)
    requires Fitting(cs, p)
    ensures r.Success? ==> HasShape(r.value.sum, p) && r.value.count <= |cs|
  {
    if |cs| == 0 then Success(PsfTotal(ZeroVolume(p), 0))
    else
      var front := cs[..|cs| - 1];
      assert Fitting(front, p) by {
        assert forall i :: 0 <= i < |front| ==> front[i] == cs[i];
      }
      match TallyOf(front, p)
      case Failure(e) => Failure(e)
      case Success(t) =>
        match cs[|cs| - 1]
        case Failure(e) => Failure(e)
        case Success(None) => Success(t)
        case Success(Some(v)) => Success(PsfTotal(AddVolume(t.sum, v, p), t.count + 1))
  }

  /** One more successful outcome extends the tally by that outcome. */
  lemma TallyStep(cs: seq<Result<Option<Vol3>, SpotError>>, p: Shape3, t: nat, sum: Vol3, count: nat)
    requires Fitting(cs, p) && t < |cs| && cs[t].Success?
    requires Fitting(cs[..t], p) && TallyOf(cs[..t], p) == Success(PsfTotal(sum, count))
    ensures Fitting(cs[..t + 1], p)
    ensures TallyOf(cs[..t + 1], p) ==
              if cs[t].value.Some? then Success(PsfTotal(AddVolume(sum, cs[t].value.value, p), count + 1))
              else Success(PsfTotal(sum, count))
  {
    FittingPrefix(cs, p, t + 1);
    assert cs[..t + 1][..t] == cs[..t];
  }

  lemma CandidatesFit(img: Vol3, s: Shape3, p: Int3, ws: seq<Window>, smooth: Window -> Smoothing)
    requires HasShape(img, s) && p.z >= 0 && p.y >= 0 && p.x >= 0
    ensures Fitting(Candidates(img, s, p, ws, smooth), AsShape(p))
  {
  }

  lemma FittingPrefix(cs: seq<Result<Option<Vol3>, SpotError>>, p: Shape3, t: nat)
    requires Fitting(cs, p) && t <= |cs|
    ensures Fitting(cs[..t], p)
  {
    assert forall i :: 0 <= i < t ==> cs[..t][i] == cs[i];
  }

  /** Once a prefix of the candidates has failed, the whole loop has. */
  lemma {:induction false} TallyFailureSticks(cs: seq<Result<Option<Vol3>, SpotError>>, p: Shape3, t: nat)
    requires Fitting(cs, p) && t <= |cs|
    requires TallyOf(cs[..t], p).Failure?
    ensures TallyOf(cs, p) == TallyOf(cs[..t], p)
    decreases |cs| - t
  {
    if t < |cs| {
      var front := cs[..|cs| - 1];
      assert front[..t] == cs[..t];
      FittingPrefix(cs, p, |cs| - 1);
      TallyFailureSticks(front, p, t);
    } else {
      assert cs[..t] == cs;
    }
  }

  /** One candidate of the loop of `spots2psf`. */
  method Candidate(img: Vol3, s: Shape3, p: Int3, w: Window, smooth: Window -> Smoothing)
    returns (r: Result<Option<Vol3>, SpotError>)
    requires HasShape(img, s) && p.z >= 0 && p.y >= 0 && p.x >= 0
    ensures r == CandidateOf(img, s, p, w, smooth)
  {
    var e := ExpandWindow(w, p, s);
    if e.Failure? {
      return Failure(NoRoom(e.error));
    }
    var centred := MaximumCentering(e.value, smooth(e.value), p, FullRange(s));
    var c, msg := centred.0, centred.1;
    if !NonEmpty(c) {
      return Failure(EmptyCandidate(c));
    }
    if msg.Some? {
      return Success(None);
    }
    return Success(Some(CropWindow(img, s, c)));
  }

  /** The candidate loop of `spots2psf`: expand, centre, crop, and add the
      message-free candidates to `psf_sum`, counting them. */
  method SumCandidates(img: Vol3, s: Shape3, p: Int3, ws: seq<Window>, smooth: Window -> Smoothing)
    returns (r: Result<PsfTotal, SpotError>)
    requires HasShape(img, s) && p.z >= 0 && p.y >= 0 && p.x >= 0
    ensures r == TallyOf(Candidates(img, s, p, ws, smooth), AsShape(p))
  {
    ghost var cs := Candidates(img, s, p, ws, smooth);
    var sh := AsShape(p);
    var sum := ZeroVolume(sh);
    var count: nat := 0;
    for t := 0 to |ws|
      invariant Fitting(cs[..t], sh)
      invariant TallyOf(cs[..t], sh) == Success(PsfTotal(sum, count))
    {
      var c := Candidate(img, s, p, ws[t], smooth);
      assert c == cs[t];
      if c.Failure? {
        FittingPrefix(cs, sh, t + 1);
        assert cs[..t + 1][..t] == cs[..t];
        TallyFailureSticks(cs, sh, t + 1);
        return Failure(c.error);
      }
      TallyStep(cs, sh, t, sum, count);
      if c.value.Some? {
        sum := AddVolume(sum, c.value.value, sh);
        count := count + 1;
      }
    }
    assert cs[..|ws|] == cs;
    return Success(PsfTotal(sum, count));
  }

  /** The loop fails exactly when some candidate cannot be expanded or centres
      onto an empty crop. */
  lemma {:induction false} TallyFailsIff(cs: seq<Result<Option<Vol3>, SpotError>>, p: Shape3)
    requires Fitting(cs, p)
    ensures TallyOf(cs, p).Failure? <==> exists i :: 0 <= i < |cs| && cs[i].Failure?
  {
    if |cs| > 0 {
      var front := cs[..|cs| - 1];
      FittingPrefix(cs, p, |cs| - 1);
      TallyFailsIff(front, p);
      assert forall i :: 0 <= i < |front| ==> front[i] == cs[i];
    }
  }

  /** The two extremes: when every candidate is accepted the count is the
      number of candidates; when every one is skipped the sum is zero and
      the count 0. */
  lemma {:induction false} TallyCountsAccepted(cs: seq<Result<Option<Vol3>, SpotError>>, p: Shape3)
    requires Fitting(cs, p)
    ensures (forall i :: 0 <= i < |cs| ==> (cs[i].Success? && cs[i].value.Some?)) ==>
      (TallyOf(cs, p).Success? && TallyOf(cs, p).value.count == |cs|)
    ensures (forall i :: 0 <= i < |cs| ==> cs[i] == Success(None)) ==>
      TallyOf(cs, p) == Success(PsfTotal(ZeroVolume(p), 0))
  {
    if |cs| > 0 {
      var front := cs[..|cs| - 1];
      FittingPrefix(cs, p, |cs| - 1);
      assert forall i :: 0 <= i < |front| ==> front[i] == cs[i];
      TallyCountsAccepted(front, p);
    }
  }

  /** The positions of the candidates that carry a crop and no message. */
  function AcceptedAt(cs: seq<Result<Option<Vol3>, SpotError>>): set<nat>
  {
    set i: nat | i < |cs| && cs[i].Success? && cs[i].value.Some?
  }

  /** The crops of the accepted candidates, in candidate order. */
  function AcceptedCrops(cs: seq<Result<Option<Vol3>, SpotError>>, p: Shape3): (r: seq<Vol3>)
    requires Fitting(cs, p)
    ensures forall k :: 0 <= k < |r| ==> HasShape(r[k], p)
  {
    if |cs| == 0 then []
    else
      var front := cs[..|cs| - 1];
      assert Fitting(front, p) by {
        assert forall i :: 0 <= i < |front| ==> front[i] == cs[i];
      }
      var last := cs[|cs| - 1];
      AcceptedCrops(front, p) + (if last.Success? && last.value.Some? then [last.value.value] else [])
  }

  /** Voxel (a, b, c) summed over crops of shape p. */
  function VoxelSum(vs: seq<Vol3>, p: Shape3, a: nat, b: nat, c: nat): real
    requires forall k :: 0 <= k < |vs| ==> HasShape(vs[k], p)
    requires a < p.n0 && b < p.n1 && c < p.n2
  {
    if |vs| == 0 then 0.0
    else
      var v := vs[|vs| - 1];
      assert HasShape(v, p);
      VoxelSum(vs[..|vs| - 1], p, a, b, c) + v[a][b][c]
  }

  /** One more candidate adds its position exactly when it is accepted. */
  lemma AcceptedAtStep(cs: seq<Result<Option<Vol3>, SpotError>>)
    requires |cs| > 0
    ensures var n := |cs| - 1;
      |AcceptedAt(cs)| == |AcceptedAt(cs[..n])| + (if cs[n].Success? && cs[n].value.Some? then 1 else 0)
  {
    var n := |cs| - 1;
    var front, before, after := cs[..n], AcceptedAt(cs[..n]), AcceptedAt(cs);
    var added := if cs[n].Success? && cs[n].value.Some? then {n} else {};
    forall i: nat ensures i in after <==> i in before + added {
      if i < n {
        assert front[i] == cs[i];
      }
    }
    assert after == before + added;
    assert before !! added;
  }

  /** One more candidate adds its position and its crop exactly when it is
      accepted. */
  lemma AcceptedStep(cs: seq<Result<Option<Vol3>, SpotError>>, p: Shape3)
    requires Fitting(cs, p) && |cs| > 0
    ensures Fitting(cs[..|cs| - 1], p)
    ensures var n := |cs| - 1;
      if cs[n].Success? && cs[n].value.Some? then
        |AcceptedAt(cs)| == |AcceptedAt(cs[..n])| + 1 &&
        AcceptedCrops(cs, p) == AcceptedCrops(cs[..n], p) + [cs[n].value.value]
      else
        |AcceptedAt(cs)| == |AcceptedAt(cs[..n])| && AcceptedCrops(cs, p) == AcceptedCrops(cs[..n], p)
  {
    FittingPrefix(cs, p, |cs| - 1);
    AcceptedAtStep(cs);
  }

  /** A candidate is counted exactly when it carries a crop and no message:
      a successful loop counts the accepted positions, and each voxel of
      `psf_sum` is that voxel summed over their crops. */
  lemma {:induction false} TallyIsAcceptedSum(cs: seq<Result<Option<Vol3>, SpotError>>, p: Shape3)
    requires Fitting(cs, p) && TallyOf(cs, p).Success?
    ensures TallyOf(cs, p).value.count == |AcceptedAt(cs)| == |AcceptedCrops(cs, p)|
    ensures forall a: nat, b: nat, c: nat :: a < p.n0 && b < p.n1 && c < p.n2 ==>
      TallyOf(cs, p).value.sum[a][b][c] == VoxelSum(AcceptedCrops(cs, p), p, a, b, c)
  {
    if |cs| == 0 {
      assert AcceptedAt(cs) == {};
    } else {
      var n := |cs| - 1;
      var front := cs[..n];
      AcceptedStep(cs, p);
      TallyIsAcceptedSum(front, p);
      var t := TallyOf(front, p).value;
      var crops := AcceptedCrops(cs, p);
      if cs[n].Success? && cs[n].value.Some? {
        assert crops[..|crops| - 1] == AcceptedCrops(front, p);
        forall a: nat, b: nat, c: nat | a < p.n0 && b < p.n1 && c < p.n2
          ensures TallyOf(cs, p).value.sum[a][b][c] == VoxelSum(crops, p, a, b, c)
        {
          assert TallyOf(cs, p).value.sum[a][b][c] == t.sum[a][b][c] + cs[n].value.value[a][b][c];
        }
      }
    }
  }

  /** With the shape folded over all windows, every expanded window has
      exactly the PSF shape, so every `psf_sum += psf_canditate` adds arrays
      of one shape. */
  lemma ExpandedFitsShape(ws: seq<Window>, i: nat, s: Shape3)
    requires i < |ws| && ExpandedWindow(ws[i], PsfShapeOf(ws), s).Success?
    ensures Extent(ExpandedWindow(ws[i], PsfShapeOf(ws), s).value) == PsfShapeOf(ws)
  {
    PsfShapeCovers(ws);
  }

  // ---------------------------------------------------------------- spots2psf

  /** The result of `spots2psf` before it is written out: the PSF shape, the
      summed candidates and how many were added. */
  datatype SpotsPsf = SpotsPsf(shape: Int3, sum: Vol3, count: nat)

  function SpotsToPsf(img: Vol3, s: Shape3, o: Optics, findClusters: Vol3 -> seq<Real3>,
                      smooth: Window -> Smoothing): (r: Result<SpotsPsf, SpotError>)
    requires HasShape(img, s)
    ensures r.Success? ==> ZeroOrOdd(r.value.shape.z) && ZeroOrOdd(r.value.shape.y) && ZeroOrOdd(r.value.shape.x)
    ensures r.Success? ==>
      (r.value.shape.z >= 0 && r.value.shape.y >= 0 && r.value.shape.x >= 0 &&
       HasShape(r.value.sum, AsShape(r.value.shape)))
  {
    match BlurSteps(o)
    case Failure(e) => Failure(e)
    case Success(n) =>
      var ws := Windows(findClusters(Binned(img, s, n)), n, s);
      var p := PsfShapeOf(ws);
      CandidatesFit(img, s, p, ws, smooth);
      match TallyOf(Candidates(img, s, p, ws, smooth), AsShape(p))
      case Failure(e) => Failure(e)
      case Success(t) => Success(SpotsPsf(p, t.sum, t.count))
  }

  /** `spots2psf`: blur steps, binning, cluster windows, PSF shape, and the
      candidate loop.  Cluster finding and the box-blur measurements are the
      parameters `findClusters` and `smooth`. */
  method Spots2Psf(img: Vol3, s: Shape3, o: Optics, findClusters: Vol3 -> seq<Real3>, smooth: Window -> Smoothing)
    returns (r: Result<SpotsPsf, SpotError>)
    requires HasShape(img, s)
    ensures r == SpotsToPsf(img, s, o, findClusters, smooth)
    ensures r.Success? ==> r.value.count <= |findClusters(Binned(img, s, BlurSteps(o).value))|
  {
    var steps := BlurSteps(o);
    if steps.Failure? {
      return Failure(steps.error);
    }
    var n := steps.value;
    var blurred := Bin(img, s, n);
    var centres := findClusters(blurred);
    var ws, p := ClusterWindows(centres, n, s);
    assert ws == Windows(centres, n, s);
    var t := SumCandidates(img, s, p, ws, smooth);
    if t.Failure? {
      return Failure(t.error);
    }
    return Success(SpotsPsf(p, t.value.sum, t.value.count));
  }
}
