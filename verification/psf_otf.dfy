/** The point spread function of the deconvolution library
    (`deconvolve/cpp/src/psf.hpp`, `psf.cpp`): the PSF samples with their
    dimensions and voxel sizes, and the image the OTF is computed from —
    the PSF resampled onto an image grid by tri-linear interpolation,
    shifted so that its centre sits at the origin, and normalised to sum 1.
    The FFT applied to that image last is not modelled. */
module PsfOtf {
  import opened Wrappers
  import opened PyNum
  import opened NdArray
  import opened FftwSettings
  import opened Images

  datatype PsfError =
    | InconsistentPsfSize   // set: data length is neither 0 nor n1·n2·n3
    | EmptyPsf              // otf requested from a PSF without data
    | ZeroSum               // the resampled PSF sums to 0 (normalisation divides by it)

  // ------------------------------------------------------------ coordinates

  /** The position, relative to the grid centre, of (possibly fractional)
      index `ind` on an axis of `n` voxels of size `voxel`. */
  function Centre(ind: real, n: nat, voxel: real): real
  {
    voxel * ((ind + 0.5) - n as real * 0.5)
  }

  /** `getind`: the fractional PSF index whose centre lies at `distance`
      from the PSF grid centre. */
  function GetInd(distance: real, voxel: real, elem: nat): (ind: real)
    requires voxel != 0.0
    ensures Centre(ind, elem, voxel) == distance
  {
    var q := distance / voxel;
    DivBack(distance, voxel);
    assert voxel * (q * voxel) / voxel == q * voxel;
    q + elem as real * 0.5 - 0.5
  }

  /** The two grids are centred on each other: the output grid centre maps
      to the PSF grid centre, and on a grid equal to the PSF's own every
      output index maps to itself. */
  lemma CentresCoincide(i: nat, n: nat, v: real)
    requires v != 0.0
    ensures GetInd(0.0, v, n) == (n as real - 1.0) / 2.0
    ensures GetInd(Centre(i as real, n, v), v, n) == i as real
  {
    var x := (i as real + 0.5) - n as real * 0.5;
    assert Centre(i as real, n, v) == x * v;
    DivBack(x, v);
  }

  /** Where one output index falls on one PSF axis: the integer part `j`
      (the C++ `(int)` cast, truncating toward zero) and the fraction `x`. */
  datatype AxisSample = AxisSample(j: int, x: real)

  function Sample(i: nat, n: nat, v: real, m: nat, vp: real): (a: AxisSample)
    requires vp != 0.0
    ensures a.j as real + a.x == GetInd(Centre(i as real, n, v), vp, m)
  {
    var ind := GetInd(Centre(i as real, n, v), vp, m);
    var j := Trunc(ind);
    AxisSample(j, ind - j as real)
  }

  /** The bounds check of the interpolation on one axis. */
  predicate InBounds(a: AxisSample, m: nat)
  {
    0 <= a.j && a.j < m - 1
  }

  /** The check passes exactly for indices strictly between -1 and m-1 on
      an axis of at least two samples: truncation maps (-1, 0) to 0, so
      those are let through too. */
  lemma InBoundsIff(i: nat, n: nat, v: real, m: nat, vp: real)
    requires vp != 0.0
    ensures var ind := GetInd(Centre(i as real, n, v), vp, m);
            InBounds(Sample(i, n, v, m, vp), m) <==> m >= 2 && -1.0 < ind < m as real - 1.0
  {
    var ind := GetInd(Centre(i as real, n, v), vp, m);
    assert Sample(i, n, v, m, vp).j == Trunc(ind);
    TruncInBounds(ind, m);
  }

  lemma TruncInBounds(ind: real, m: nat)
    ensures 0 <= Trunc(ind) < m - 1 <==> m >= 2 && -1.0 < ind < m as real - 1.0
  {
    var t := Trunc(ind);
    if ind >= 0.0 {
      assert t >= 0;
      assert t < m - 1 <==> (t + 1) as real <= (m - 1) as real;
    } else {
      assert t as real - 1.0 < ind <= t as real;
      assert t <= 0;
      assert t >= 0 <==> ind > -1.0;

    }
  }

  /** An index in (-1, 0) is interpolated with a negative fraction, that is
      extrapolated from the first two PSF planes. */
  lemma NegativeFractionPasses(i: nat, n: nat, v: real, m: nat, vp: real)
    requires vp != 0.0 && m >= 2
    requires -1.0 < GetInd(Centre(i as real, n, v), vp, m) < 0.0
    ensures InBounds(Sample(i, n, v, m, vp), m)
    ensures -1.0 < Sample(i, n, v, m, vp).x < 0.0
  {
  }

  /** A non-negative index that passes has its fraction in [0, 1). */
  lemma FractionInUnit(i: nat, n: nat, v: real, m: nat, vp: real)
    requires vp != 0.0
    requires GetInd(Centre(i as real, n, v), vp, m) >= 0.0
    ensures 0.0 <= Sample(i, n, v, m, vp).x < 1.0
  {
  }

  // -------------------------------------------------------- interpolation

  /** Linear interpolation between `a` (at 0) and `b` (at 1). */
  function Lerp(a: real, b: real, x: real): real
  {
    a * (1.0 - x) + b * x
  }

  lemma MulNonNegative(a: real, b: real)
    requires a >= 0.0 && b >= 0.0
    ensures a * b >= 0.0
  {
  }

  /** For a fraction in [0, 1] the interpolated value lies between the two
      samples' bounds. */
  lemma LerpBetween(a: real, b: real, x: real, lo: real, hi: real)
    requires lo <= a <= hi && lo <= b <= hi && 0.0 <= x <= 1.0
    ensures lo <= Lerp(a, b, x) <= hi
  {
    MulNonNegative(a - lo, 1.0 - x);
    MulNonNegative(b - lo, x);
    MulNonNegative(hi - a, 1.0 - x);
    MulNonNegative(hi - b, x);
    assert Lerp(a, b, x) - lo == (a - lo) * (1.0 - x) + (b - lo) * x;
    assert hi - Lerp(a, b, x) == (hi - a) * (1.0 - x) + (hi - b) * x;
  }

  /** The eight corner samples around one interpolation point. */
  datatype Corners = Corners(c000: real, c001: real, c010: real, c011: real,
                             c100: real, c101: real, c110: real, c111: real)

  predicate CornersWithin(c: Corners, lo: real, hi: real)
  {
    lo <= c.c000 <= hi && lo <= c.c001 <= hi && lo <= c.c010 <= hi && lo <= c.c011 <= hi &&
    lo <= c.c100 <= hi && lo <= c.c101 <= hi && lo <= c.c110 <= hi && lo <= c.c111 <= hi
  }

  /** Tri-linear interpolation: along axis 1 first, then 2, then 3. */
  function Trilinear(c: Corners, x1: real, x2: real, x3: real): real
  {
    var c00 := Lerp(c.c000, c.c100, x1);
    var c01 := Lerp(c.c001, c.c101, x1);
    var c10 := Lerp(c.c010, c.c110, x1);
    var c11 := Lerp(c.c011, c.c111, x1);
    var c0 := Lerp(c00, c10, x2);
    var c1 := Lerp(c01, c11, x2);
    Lerp(c0, c1, x3)
  }

  /** With fractions in [0, 1] the value is a convex combination of the
      corners: it stays within their bounds, and it is the first corner at
      fraction 0. */
  lemma TrilinearConvex(c: Corners, x1: real, x2: real, x3: real, lo: real, hi: real)
    requires CornersWithin(c, lo, hi)
    requires 0.0 <= x1 <= 1.0 && 0.0 <= x2 <= 1.0 && 0.0 <= x3 <= 1.0
    ensures lo <= Trilinear(c, x1, x2, x3) <= hi
    ensures Trilinear(c, 0.0, 0.0, 0.0) == c.c000
  {
    LerpBetween(c.c000, c.c100, x1, lo, hi);
    LerpBetween(c.c001, c.c101, x1, lo, hi);
    LerpBetween(c.c010, c.c110, x1, lo, hi);
    LerpBetween(c.c011, c.c111, x1, lo, hi);
    var c00 := Lerp(c.c000, c.c100, x1);
    var c01 := Lerp(c.c001, c.c101, x1);
    var c10 := Lerp(c.c010, c.c110, x1);
    var c11 := Lerp(c.c011, c.c111, x1);
    LerpBetween(c00, c10, x2, lo, hi);
    LerpBetween(c01, c11, x2, lo, hi);
    LerpBetween(Lerp(c00, c10, x2), Lerp(c01, c11, x2), x3, lo, hi);
  }

  // ------------------------------------------------------------ flat index

  /** Row-major position of (a, b, c) in a grid of shape n. */
  function FlatIndex(a: nat, b: nat, c: nat, n: Shape3): (t: nat)
    requires a < n.n0 && b < n.n1 && c < n.n2
    ensures t < Volume(n)
  {
    var r := RowStart(a, n.n1, n.n0) + b;
    RowStart(r, n.n2, Rows(n)) + c
  }

  /** The coordinates of flat position t. */
  datatype Coord = Coord(a: nat, b: nat, c: nat)

  function Coords(t: nat, n: Shape3): (p: Coord)
    requires t < Volume(n)
    ensures p.a < n.n0 && p.b < n.n1 && p.c < n.n2
    ensures FlatIndex(p.a, p.b, p.c, n) == t
  {
    var r := t / n.n2;
    DivBelow(t, n.n2, Rows(n));
    DivBelow(r, n.n1, n.n0);
    assert RowStart(r / n.n1, n.n1, n.n0) + r % n.n1 == r;
    assert RowStart(r, n.n2, Rows(n)) + t % n.n2 == t;
    Coord(r / n.n1, r % n.n1, t % n.n2)
  }

  /** t < k·d implies t / d < k. */
  lemma DivBelow(t: nat, d: nat, k: nat)
    requires t < k * d
    ensures d > 0 && t / d < k
  {
    if t / d >= k {
      MulMono(t / d, k, d);
      assert false;
    }
  }

  lemma MulMono(a: nat, b: nat, d: nat)
    requires a >= b
    ensures a * d >= b * d
  {
  }

  /** Flat positions decode back to the coordinates they were built from. */
  lemma CoordsOfFlat(a: nat, b: nat, c: nat, n: Shape3)
    requires a < n.n0 && b < n.n1 && c < n.n2
    ensures Coords(FlatIndex(a, b, c, n), n) == Coord(a, b, c)
  {
    var r := a * n.n1 + b;
    var t := FlatIndex(a, b, c, n);
    ModUnique(t, n.n2, r, c);
    ModUnique(r, n.n1, a, b);
  }

  // ----------------------------------------------------------------- shift

  /** The storage index of output index i: `(i + n/2 + 1) % n`. */
  function Shift(i: nat, n: nat): (s: nat)
    requires i < n
    ensures s < n
  {
    (i + n / 2 + 1) % n
  }

  /** The output index stored at s. */
  function Unshift(s: nat, n: nat): (i: nat)
    requires s < n
    ensures i < n
  {
    (s + (n - n / 2 - 1)) % n
  }

  /** The shift is a bijection on [0, n): every storage place receives
      exactly one output voxel. */
  lemma ShiftBijection(i: nat, s: nat, n: nat)
    requires i < n && s < n
    ensures Unshift(Shift(i, n), n) == i
    ensures Shift(Unshift(s, n), n) == s
  {
    var h := n / 2 + 1;
    if i + h < n {
      ModUnique(i + h, n, 0, i + h);
      ModUnique(i + h + (n - h), n, 1, i);
    } else {
      ModUnique(i + h, n, 1, i + h - n);
      ModUnique(i + h - n + (n - h), n, 0, i);
    }
    var k := n - h;
    if s + k < n {
      ModUnique(s + k, n, 0, s + k);
      ModUnique(s + k + h, n, 1, s);
    } else {
      ModUnique(s + k, n, 1, s + k - n);
      ModUnique(s + k - n + h, n, 0, s);
    }
  }

  /** The voxel at the grid centre, (n-1)/2, is stored at index 0. */
  lemma CentreToOrigin(n: nat)
    requires n > 0
    ensures Shift((n - 1) / 2, n) == 0
  {
    ModUnique((n - 1) / 2 + n / 2 + 1, n, 1, 0);
  }

  // --------------------------------------------------------------- resampling

  /** One resampling: the PSF samples, their grid, the image grid. */
  datatype Resampling = Resampling(data: seq<real>, m: Shape3, vp: Real3, n: Shape3, v: Real3)
  {
    predicate Ok()
    {
      |data| == Volume(m) && Positive(m) && Positive(n) && vp.z != 0.0 && vp.y != 0.0 && vp.x != 0.0
    }
  }

  /** `psf[a][b][c]`. */
  function PsfAt(g: Resampling, a: int, b: int, c: int): real
    requires g.Ok() && 0 <= a < g.m.n0 && 0 <= b < g.m.n1 && 0 <= c < g.m.n2
  {
    g.data[FlatIndex(a, b, c, g.m)]
  }

  /** The interpolated value of output voxel (i1, i2, i3): zero unless the
      bounds check passes on all three axes. */
  function InterpAt(g: Resampling, i1: nat, i2: nat, i3: nat): real
    requires g.Ok()
  {
    var a1 := Sample(i1, g.n.n0, g.v.z, g.m.n0, g.vp.z);
    var a2 := Sample(i2, g.n.n1, g.v.y, g.m.n1, g.vp.y);
    var a3 := Sample(i3, g.n.n2, g.v.x, g.m.n2, g.vp.x);
    if InBounds(a1, g.m.n0) && InBounds(a2, g.m.n1) && InBounds(a3, g.m.n2) then
      var j1, j2, j3 := a1.j, a2.j, a3.j;
      var c := Corners(PsfAt(g, j1, j2, j3), PsfAt(g, j1, j2, j3 + 1),
                       PsfAt(g, j1, j2 + 1, j3), PsfAt(g, j1, j2 + 1, j3 + 1),
                       PsfAt(g, j1 + 1, j2, j3), PsfAt(g, j1 + 1, j2, j3 + 1),
                       PsfAt(g, j1 + 1, j2 + 1, j3), PsfAt(g, j1 + 1, j2 + 1, j3 + 1));
      Trilinear(c, a1.x, a2.x, a3.x)
    else
      0.0
  }

  /** Where output voxel (i1, i2, i3) is stored. */
  function StoreAt(n: Shape3, i1: nat, i2: nat, i3: nat): (t: nat)
    requires i1 < n.n0 && i2 < n.n1 && i3 < n.n2
    ensures t < Volume(n)
  {
    FlatIndex(Shift(i1, n.n0), Shift(i2, n.n1), Shift(i3, n.n2), n)
  }

  /** The output voxel stored at t. */
  function Source(t: nat, n: Shape3): (p: Coord)
    requires t < Volume(n)
    ensures p.a < n.n0 && p.b < n.n1 && p.c < n.n2
  {
    var q := Coords(t, n);
    Coord(Unshift(q.a, n.n0), Unshift(q.b, n.n1), Unshift(q.c, n.n2))
  }

  /** The place of the voxel stored at t in the loops' visiting order. */
  function Rank(t: nat, n: Shape3): nat
    requires t < Volume(n)
  {
    var p := Source(t, n);
    FlatIndex(p.a, p.b, p.c, n)
  }

  /** The resampled, shifted PSF, by storage position. */
  function Interpolated(g: Resampling): (u: seq<real>)
    requires g.Ok()
    ensures |u| == Volume(g.n)
  {
    seq(Volume(g.n), t requires 0 <= t < Volume(g.n) =>
      var p := Source(t, g.n); InterpAt(g, p.a, p.b, p.c))
  }

  /** Storage and source are inverse: output voxel (i1, i2, i3) is stored at
      `StoreAt`, and nothing else is stored there. */
  lemma StoreAtSource(n: Shape3, i1: nat, i2: nat, i3: nat, t: nat)
    requires i1 < n.n0 && i2 < n.n1 && i3 < n.n2 && t < Volume(n)
    ensures Source(StoreAt(n, i1, i2, i3), n) == Coord(i1, i2, i3)
    ensures Source(t, n) == Coord(i1, i2, i3) ==> t == StoreAt(n, i1, i2, i3)
  {
    CoordsOfFlat(Shift(i1, n.n0), Shift(i2, n.n1), Shift(i3, n.n2), n);
    ShiftBijection(i1, 0, n.n0);
    ShiftBijection(i2, 0, n.n1);
    ShiftBijection(i3, 0, n.n2);
    var q := Coords(t, n);
    ShiftBijection(0, q.a, n.n0);
    ShiftBijection(0, q.b, n.n1);
    ShiftBijection(0, q.c, n.n2);
  }

  /** Every output voxel lands, once, at its shifted place. */
  lemma InterpolatedPlacement(g: Resampling, i1: nat, i2: nat, i3: nat)
    requires g.Ok() && i1 < g.n.n0 && i2 < g.n.n1 && i3 < g.n.n2
    ensures Interpolated(g)[StoreAt(g.n, i1, i2, i3)] == InterpAt(g, i1, i2, i3)
  {
    StoreAtSource(g.n, i1, i2, i3, 0);
  }

  /** A PSF with a single sample along some axis never passes the bounds
      check (it needs j < m - 1 = 0), so it resamples to all zeros and the
      normalisation divides by zero. */
  lemma SingleSampleAxisVanishes(g: Resampling)
    requires g.Ok() && (g.m.n0 == 1 || g.m.n1 == 1 || g.m.n2 == 1)
    ensures forall t :: 0 <= t < Volume(g.n) ==> Interpolated(g)[t] == 0.0
    ensures Sum(Interpolated(g)) == 0.0
  {
    SumZeroOfZeros(Interpolated(g));
  }

  /** Resampling onto the PSF's own grid copies the PSF, shifted, except
      that the last plane of every axis fails the bounds check and is
      zeroed. */
  lemma OwnGridCopies(g: Resampling, i1: nat, i2: nat, i3: nat)
    requires g.Ok() && g.n == g.m && g.v == g.vp
    requires i1 < g.n.n0 && i2 < g.n.n1 && i3 < g.n.n2
    ensures i1 < g.m.n0 - 1 && i2 < g.m.n1 - 1 && i3 < g.m.n2 - 1 ==>
              InterpAt(g, i1, i2, i3) == PsfAt(g, i1, i2, i3)
    ensures i1 == g.m.n0 - 1 || i2 == g.m.n1 - 1 || i3 == g.m.n2 - 1 ==>
              InterpAt(g, i1, i2, i3) == 0.0
  {
    CentresCoincide(i1, g.n.n0, g.v.z);
    CentresCoincide(i2, g.n.n1, g.v.y);
    CentresCoincide(i3, g.n.n2, g.v.x);
    var a1 := Sample(i1, g.n.n0, g.v.z, g.m.n0, g.vp.z);
    var a2 := Sample(i2, g.n.n1, g.v.y, g.m.n1, g.vp.y);
    var a3 := Sample(i3, g.n.n2, g.v.x, g.m.n2, g.vp.x);
    assert a1 == AxisSample(i1, 0.0) && a2 == AxisSample(i2, 0.0) && a3 == AxisSample(i3, 0.0);
  }

  // ------------------------------------------------------------ normalising

  /** Every value divided by s. */
  function Normalised(u: seq<real>, s: real): (w: seq<real>)
    requires s != 0.0
    ensures |w| == |u|
  {
    seq(|u|, i requires 0 <= i < |u| => u[i] / s)
  }

  /** After normalisation by its own non-zero sum the image sums to 1. */
  lemma NormalisedSumsToOne(u: seq<real>)
    requires Sum(u) != 0.0
    ensures Sum(Normalised(u, Sum(u))) == 1.0
  {
    SumScale(u, Sum(u));
    assert Normalised(u, Sum(u)) == seq(|u|, i requires 0 <= i < |u| => u[i] / Sum(u));
    assert Sum(u) / Sum(u) == 1.0;
  }

  // ------------------------------------------------------ the fill loops

  /** The flat position of the start of line (i1, i2), in visiting order. */
  function LineBase(i1: nat, i2: nat, n: Shape3): nat
  {
    (i1 * n.n1 + i2) * n.n2
  }

  lemma FlatIndexInLine(i1: nat, i2: nat, i3: nat, n: Shape3)
    requires i1 < n.n0 && i2 < n.n1 && i3 < n.n2
    ensures FlatIndex(i1, i2, i3, n) == LineBase(i1, i2, n) + i3
  {
  }

  lemma LineBaseNext(i1: nat, i2: nat, n: Shape3)
    ensures LineBase(i1, i2, n) + n.n2 == LineBase(i1, i2 + 1, n)
    ensures LineBase(i1, n.n1, n) == LineBase(i1 + 1, 0, n)
    ensures LineBase(n.n0, 0, n) == Volume(n)
  {
    assert (i1 * n.n1 + i2) * n.n2 + n.n2 == (i1 * n.n1 + i2 + 1) * n.n2;
    assert i1 * n.n1 + n.n1 == (i1 + 1) * n.n1;
  }

  /** The buffer once the first k output voxels, in visiting order, have
      been written: their values `u` at their shifted places, zeros
      elsewhere. */
  function Partial(u: seq<real>, n: Shape3, k: nat): (w: seq<real>)
    requires |u| == Volume(n)
    ensures |w| == |u|
  {
    seq(|u|, t requires 0 <= t < |u| => if Rank(t, n) < k then u[t] else 0.0)
  }

  /** Writing output voxel k at its place extends the partial buffer by one. */
  lemma PartialStep(u: seq<real>, n: Shape3, i1: nat, i2: nat, i3: nat)
    requires |u| == Volume(n) && i1 < n.n0 && i2 < n.n1 && i3 < n.n2
    ensures var k := FlatIndex(i1, i2, i3, n);
            var p := StoreAt(n, i1, i2, i3);
            Partial(u, n, k)[p := u[p]] == Partial(u, n, k + 1)
  {
    var k := FlatIndex(i1, i2, i3, n);
    var p := StoreAt(n, i1, i2, i3);
    var before := Partial(u, n, k)[p := u[p]];
    var after := Partial(u, n, k + 1);
    forall t | 0 <= t < |u|
      ensures before[t] == after[t]
    {
      StoreAtSource(n, i1, i2, i3, t);
      if t != p && Rank(t, n) == k {
        var q := Source(t, n);
        CoordsOfFlat(q.a, q.b, q.c, n);
        CoordsOfFlat(i1, i2, i3, n);
        assert false;
      }
    }
  }

  /** The empty partial buffer is all zeros; the full one is the whole image. */
  lemma PartialEnds(u: seq<real>, n: Shape3)
    requires |u| == Volume(n)
    ensures Partial(u, n, 0) == seq(|u|, t => 0.0)
    ensures Partial(u, n, Volume(n)) == u
  {
  }

  /** The innermost loop of `otf`: one line along axis 3. */
  method FillLine(g: Resampling, buf: array<real>, i1: nat, i2: nat, a1: AxisSample, a2: AxisSample,
                  ghost u: seq<real>)
    requires g.Ok() && i1 < g.n.n0 && i2 < g.n.n1 && u == Interpolated(g)
    requires a1 == Sample(i1, g.n.n0, g.v.z, g.m.n0, g.vp.z)
    requires a2 == Sample(i2, g.n.n1, g.v.y, g.m.n1, g.vp.y)
    requires buf.Length == Volume(g.n) && buf[..] == Partial(u, g.n, LineBase(i1, i2, g.n))
    modifies buf
    ensures buf[..] == Partial(u, g.n, LineBase(i1, i2, g.n) + g.n.n2)
  {
    var i3 := 0;
    while i3 < g.n.n2
      invariant i3 <= g.n.n2
      invariant buf[..] == Partial(u, g.n, LineBase(i1, i2, g.n) + i3)
    {
      var a3 := Sample(i3, g.n.n2, g.v.x, g.m.n2, g.vp.x);
      var value := VoxelValue(g, i1, i2, i3, a1, a2, a3);
      InterpolatedPlacement(g, i1, i2, i3);
      FlatIndexInLine(i1, i2, i3, g.n);
      ghost var k := LineBase(i1, i2, g.n) + i3;
      assert buf[..] == Partial(u, g.n, k);
      StoreVoxel(g.n, buf, i1, i2, i3, value, u);
      assert buf[..] == Partial(u, g.n, k + 1);
      i3 := i3 + 1;
    }
  }

  /** The value of one output voxel: tri-linear interpolation of the eight
      surrounding PSF samples when the bounds check passes, 0 otherwise. */
  method VoxelValue(g: Resampling, i1: nat, i2: nat, i3: nat, a1: AxisSample, a2: AxisSample, a3: AxisSample)
    returns (value: real)
    requires g.Ok()
    requires a1 == Sample(i1, g.n.n0, g.v.z, g.m.n0, g.vp.z)
    requires a2 == Sample(i2, g.n.n1, g.v.y, g.m.n1, g.vp.y)
    requires a3 == Sample(i3, g.n.n2, g.v.x, g.m.n2, g.vp.x)
    ensures value == InterpAt(g, i1, i2, i3)
  {
    value := 0.0;
    if InBounds(a1, g.m.n0) && InBounds(a2, g.m.n1) && InBounds(a3, g.m.n2) {
      var j1, j2, j3 := a1.j, a2.j, a3.j;
      var c := Corners(PsfAt(g, j1, j2, j3), PsfAt(g, j1, j2, j3 + 1),
                       PsfAt(g, j1, j2 + 1, j3), PsfAt(g, j1, j2 + 1, j3 + 1),
                       PsfAt(g, j1 + 1, j2, j3), PsfAt(g, j1 + 1, j2, j3 + 1),
                       PsfAt(g, j1 + 1, j2 + 1, j3), PsfAt(g, j1 + 1, j2 + 1, j3 + 1));
      value := Trilinear(c, a1.x, a2.x, a3.x);
    }
  }

  /** The shifted store of one output voxel. */
  method StoreVoxel(n: Shape3, buf: array<real>, i1: nat, i2: nat, i3: nat, value: real, ghost u: seq<real>)
    requires |u| == Volume(n) && i1 < n.n0 && i2 < n.n1 && i3 < n.n2
    requires value == u[StoreAt(n, i1, i2, i3)]
    requires buf.Length == Volume(n) && buf[..] == Partial(u, n, FlatIndex(i1, i2, i3, n))
    modifies buf
    ensures buf[..] == Partial(u, n, FlatIndex(i1, i2, i3, n) + 1)
  {
    var s1 := (i1 + n.n0 / 2 + 1) % n.n0;
    var s2 := (i2 + n.n1 / 2 + 1) % n.n1;
    var s3 := (i3 + n.n2 / 2 + 1) % n.n2;
    PartialStep(u, n, i1, i2, i3);
    buf[FlatIndex(s1, s2, s3, n)] := value;
  }

  /** The middle loop: one plane along axes 2 and 3. */
  method FillPlane(g: Resampling, buf: array<real>, i1: nat, a1: AxisSample, ghost u: seq<real>)
    requires g.Ok() && i1 < g.n.n0 && u == Interpolated(g)
    requires a1 == Sample(i1, g.n.n0, g.v.z, g.m.n0, g.vp.z)
    requires buf.Length == Volume(g.n) && buf[..] == Partial(u, g.n, LineBase(i1, 0, g.n))
    modifies buf
    ensures buf[..] == Partial(u, g.n, LineBase(i1 + 1, 0, g.n))
  {
    var i2 := 0;
    while i2 < g.n.n1
      invariant i2 <= g.n.n1
      invariant buf[..] == Partial(u, g.n, LineBase(i1, i2, g.n))
    {
      var a2 := Sample(i2, g.n.n1, g.v.y, g.m.n1, g.vp.y);
      FillLine(g, buf, i1, i2, a1, a2, u);
      LineBaseNext(i1, i2, g.n);
      ghost var next := LineBase(i1, i2 + 1, g.n);
      assert buf[..] == Partial(u, g.n, next);
      i2 := i2 + 1;
    }
    LineBaseNext(i1, i2, g.n);
    ghost var next := LineBase(i1 + 1, 0, g.n);
    assert buf[..] == Partial(u, g.n, next);
  }

  /** The interpolation loops of `otf`, writing into a zero-filled buffer:
      the buffer ends up holding the resampled, shifted PSF. */
  method Resample(g: Resampling) returns (buf: array<real>)
    requires g.Ok()
    ensures fresh(buf) && buf[..] == Interpolated(g)
  {
    ghost var u := Interpolated(g);
    buf := new real[Volume(g.n)](t => 0.0);
    PartialEnds(u, g.n);
    var i1 := 0;
    while i1 < g.n.n0
      invariant i1 <= g.n.n0
      invariant buf[..] == Partial(u, g.n, LineBase(i1, 0, g.n))
    {
      var a1 := Sample(i1, g.n.n0, g.v.z, g.m.n0, g.vp.z);
      FillPlane(g, buf, i1, a1, u);
      i1 := i1 + 1;
    }
    LineBaseNext(i1, 0, g.n);
  }

  /** `std::accumulate` over the buffer. */
  method Accumulate(buf: array<real>) returns (s: real)
    ensures s == Sum(buf[..])
  {
    s := 0.0;
    var i := 0;
    while i < buf.Length
      invariant i <= buf.Length
      invariant s == Sum(buf[..i])
    {
      assert buf[..i + 1][..i] == buf[..i];
      s := s + buf[i];
      i := i + 1;
    }
    assert buf[..i] == buf[..];
  }

  /** The normalisation loop: every value divided by s, in place. */
  method NormaliseInPlace(buf: array<real>, s: real)
    requires s != 0.0
    modifies buf
    ensures buf[..] == Normalised(old(buf[..]), s)
  {
    var i := 0;
    while i < buf.Length
      invariant i <= buf.Length
      invariant forall j :: 0 <= j < i ==> buf[j] == old(buf[j]) / s
      invariant forall j :: i <= j < buf.Length ==> buf[j] == old(buf[j])
    {
      buf[i] := buf[i] / s;
      i := i + 1;
    }
  }

  // ------------------------------------------------------------- the class

  /** `PSF<T>`: the PSF samples, their dimensions and voxel sizes, and the
      image last computed by `otf`, owned by the PSF. */
  class Psf {
    var data: seq<real>
    var dims: Shape3
    var voxel: Real3
    var otf: Image?

    /** Non-empty data fills its dimensions; a cached image is allocated. */
    ghost predicate Valid()
      reads this, otf
    {
      (|data| == 0 || (|data| == Volume(dims) && Positive(dims))) &&
      (otf != null ==> otf.Valid() && otf.data != null)
    }

    /** `operator bool`: the PSF holds data. */
    predicate IsSet()
      reads this
    {
      |data| > 0
    }

    /** The default constructor: no data, zero dimensions, no cached image;
        the voxel sizes are left uninitialised. */
    constructor ()
      ensures Valid() && data == [] && dims == Shape3(0, 0, 0) && otf == null
    {
      data := [];
      dims := Shape3(0, 0, 0);
      otf := null;
    }

    /** `set`: reject a non-empty vector whose length is not n1·n2·n3;
        otherwise store data, dimensions and voxel sizes and drop the
        cached image. */
    method Set(src: seq<real>, n: Shape3, v: Real3) returns (err: Option<PsfError>)
      requires Valid()
      modifies this
      ensures Valid()
      ensures |src| != 0 && |src| != Volume(n) ==>
                err == Some(InconsistentPsfSize) &&
                data == old(data) && dims == old(dims) && voxel == old(voxel) && otf == old(otf)
      ensures !(|src| != 0 && |src| != Volume(n)) ==>
                err == None && data == src && dims == n && voxel == v && otf == null
    {
      if |src| != 0 && |src| != Volume(n) {
        return Some(InconsistentPsfSize);
      }
      if |src| != 0 {
        VolumePositive(n);
      }
      dims := n;
      voxel := v;
      data := src;
      otf := null;
      err := None;
    }

    /** The cached image answers a request with these settings, dimensions
        and voxel sizes. */
    predicate CacheHit(s: ImageSettings?, n: Shape3, v: Real3)
      reads this, otf, s, if otf != null then {otf.settings} else {}
    {
      otf != null && otf.SameSettings(s) && otf.SameDims(n) && SameVoxel(otf.voxel, v)
    }

    /** `otf`, up to the FFT: an error for an empty PSF; the cached image
        when settings, dimensions and voxel sizes match it; otherwise the
        PSF resampled onto the requested grid, shifted and normalised, in a
        new image that replaces the cache. */
    method Otf(s: ImageSettings?, n: Shape3, v: Real3) returns (r: Result<Image, PsfError>)
      requires Valid() && Positive(n)
      requires |data| > 0 ==> voxel.z != 0.0 && voxel.y != 0.0 && voxel.x != 0.0
      modifies this
      ensures Valid() && data == old(data) && dims == old(dims) && voxel == old(voxel)
      ensures |data| == 0 ==> r == Failure(EmptyPsf) && otf == old(otf)
      ensures |data| > 0 && old(CacheHit(s, n, v)) ==> r.Success? && r.value == old(otf) && otf == old(otf)
      ensures |data| > 0 && !old(CacheHit(s, n, v)) ==>
                var u := Interpolated(Resampling(data, dims, voxel, n, v));
                (Sum(u) == 0.0 ==> r == Failure(ZeroSum) && otf == old(otf)) &&
                (Sum(u) != 0.0 ==>
                   r.Success? && fresh(r.value) && otf == r.value && r.value.data != null &&
                   r.value.settings == s && r.value.dims == n && r.value.voxel == v &&
                   r.value.Voxels() == Normalised(u, Sum(u)))
    {
      if |data| < 1 {
        return Failure(EmptyPsf);
      }
      if otf != null && otf.SameSettings(s) && otf.SameDims(n) && SameVoxel(otf.voxel, v) {
        return Success(otf);
      }
      var g := Resampling(data, dims, voxel, n, v);
      var buf := Resample(g);
      var total := Accumulate(buf);
      if total == 0.0 {
        return Failure(ZeroSum);
      }
      NormaliseInPlace(buf, total);
      var im := new Image(s, n, v);
      var e := im.Set(buf[..], n, v);
      otf := im;
      r := Success(im);
    }
  }

  /** A vector filling non-empty dimensions has positive dimensions. */
  lemma VolumePositive(n: Shape3)
    requires Volume(n) > 0
    ensures Positive(n)
  {
  }

  /** The data constructor: `set` on a new PSF, which throws for a vector
      of the wrong length. */
  method NewPsf(src: seq<real>, n: Shape3, v: Real3) returns (r: Result<Psf, PsfError>)
    ensures r.Failure? <==> |src| != 0 && |src| != Volume(n)
    ensures r.Failure? ==> r.error == InconsistentPsfSize
    ensures r.Success? ==> fresh(r.value) && r.value.Valid() && r.value.data == src &&
                           r.value.dims == n && r.value.voxel == v && r.value.otf == null
  {
    var p := new Psf();
    var e := p.Set(src, n, v);
    if e.Some? {
      return Failure(e.value);
    }
    r := Success(p);
  }

  /** New FFTW handlers bump the settings id, so an image cached under the
      old settings no longer matches and the OTF is recomputed. */
  lemma NewHandlersForceRecompute(p: Psf, base: ImageSettings, bumped: ImageSettings, n: Shape3, v: Real3)
    requires p.otf != null && p.otf.settings == base && bumped.id == base.id + 1
    ensures !p.CacheHit(bumped, n, v)
  {
  }
}
