/** The finite differences of the Python test helpers
    (`deconvolve/python/tests/dv.py`, copied verbatim in `test_convolve.py`):
    one-sided forward and backward differences with zero boundary values,
    the minmod limiter, and `dv`, the divergence of the normalised gradient.
    The square root is a parameter. */
module FiniteDiff {
  import opened Wrappers
  import opened PyNum
  import opened NdArray
  import Images

  // ------------------------------------------------------------ one line

  /** Forward differences before division: f[k+1] - f[k], and 0 at the
      last entry. */
  function ForwardRaw(f: seq<real>): (d: seq<real>)
    ensures |d| == |f|
  {
    seq(|f|, k requires 0 <= k < |f| => if k + 1 < |f| then f[k + 1] - f[k] else 0.0)
  }

  /** Backward differences before division: f[k] - f[k-1], and 0 at the
      first entry. */
  function BackwardRaw(f: seq<real>): (d: seq<real>)
    ensures |d| == |f|
  {
    seq(|f|, k requires 0 <= k < |f| => if k > 0 then f[k] - f[k - 1] else 0.0)
  }

  /** `dx(f, h)[0]` along one line: (f[k+1] - f[k]) / h, 0 at the end. */
  function Forward(f: seq<real>, h: real): (d: seq<real>)
    requires h != 0.0
    ensures |d| == |f|
  {
    seq(|f|, k requires 0 <= k < |f| => ForwardRaw(f)[k] / h)
  }

  /** `dx(f, h)[1]` along one line: (f[k] - f[k-1]) / h, 0 at the start. */
  function Backward(f: seq<real>, h: real): (d: seq<real>)
    requires h != 0.0
    ensures |d| == |f|
  {
    seq(|f|, k requires 0 <= k < |f| => BackwardRaw(f)[k] / h)
  }

  /** The backward differences are the forward ones moved one place on. */
  lemma BackwardIsShiftedForward(f: seq<real>, h: real)
    requires h != 0.0
    ensures forall k :: 1 <= k < |f| ==> Backward(f, h)[k] == Forward(f, h)[k - 1]
    ensures |f| > 0 ==> Backward(f, h)[0] == 0.0 && Forward(f, h)[|f| - 1] == 0.0
  {
    forall k | 1 <= k < |f|
      ensures Backward(f, h)[k] == Forward(f, h)[k - 1]
    {
      assert BackwardRaw(f)[k] == ForwardRaw(f)[k - 1];
    }
    if |f| > 0 {
      assert BackwardRaw(f)[0] == 0.0 && ForwardRaw(f)[|f| - 1] == 0.0;
      ZeroOver(h);
    }
  }

  /** One entry of each difference sequence. */
  lemma DiffAt(f: seq<real>, h: real, t: nat)
    requires h != 0.0 && t < |f|
    ensures Forward(f, h)[t] == if t + 1 < |f| then (f[t + 1] - f[t]) / h else 0.0
    ensures Backward(f, h)[t] == if t > 0 then (f[t] - f[t - 1]) / h else 0.0
  {
    ZeroOver(h);
    assert Forward(f, h)[t] == ForwardRaw(f)[t] / h;
    assert Backward(f, h)[t] == BackwardRaw(f)[t] / h;
  }

  /** Zero divided by anything non-zero is zero. */
  lemma ZeroOver(h: real)
    requires h != 0.0
    ensures 0.0 / h == 0.0
  {
    DivBack(0.0, h);
  }

  /** The backward differences telescope to f[n-1] - f[0]. */
  lemma {:induction false} BackwardRawTelescopes(f: seq<real>)
    requires |f| > 0
    ensures Sum(BackwardRaw(f)) == f[|f| - 1] - f[0]
    decreases |f|
  {
    if |f| > 1 {
      var g := f[..|f| - 1];
      assert BackwardRaw(f)[..|f| - 1] == BackwardRaw(g);
      BackwardRawTelescopes(g);
    }
  }

  /** The forward differences telescope to f[n-1] - f[0] as well. */
  lemma {:induction false} ForwardRawTelescopes(f: seq<real>)
    requires |f| > 0
    ensures Sum(ForwardRaw(f)) == f[|f| - 1] - f[0]
    decreases |f|
  {
    if |f| > 1 {
      var g := f[..|f| - 1];
      assert ForwardRaw(f)[..|f| - 1] == ForwardRaw(g)[..|g| - 1] + [f[|f| - 1] - f[|f| - 2]];
      assert ForwardRaw(g) == ForwardRaw(g)[..|g| - 1] + [0.0];
      SumAppend(ForwardRaw(g)[..|g| - 1], [0.0]);
      SumAppend(ForwardRaw(g)[..|g| - 1], [f[|f| - 1] - f[|f| - 2]]);
      ForwardRawTelescopes(g);
    }
  }

  /** Both difference sequences sum to (f[n-1] - f[0]) / h. */
  lemma DifferencesTelescope(f: seq<real>, h: real)
    requires |f| > 0 && h != 0.0
    ensures Sum(Forward(f, h)) == (f[|f| - 1] - f[0]) / h
    ensures Sum(Backward(f, h)) == (f[|f| - 1] - f[0]) / h
  {
    ForwardRawTelescopes(f);
    BackwardRawTelescopes(f);
    SumScale(ForwardRaw(f), h);
    SumScale(BackwardRaw(f), h);
  }

  /** The entries of `result` set before the loops: `result[-1] = f[-1]`
      and `result[0] = -f[0]`. */
  function Ends(f: seq<real>, j: nat): real
    requires |f| > 0
  {
    (if j == |f| then f[|f| - 1] else 0.0) + (if j == 0 then -f[0] else 0.0)
  }

  /** `result[j]` once `f[..k]` has been added to `result[:-1]`. */
  function Added(f: seq<real>, j: nat, k: nat): real
    requires |f| > 0 && k <= |f|
  {
    Ends(f, j) + (if j < k then f[j] else 0.0)
  }

  /** `result[j]` once all of f has been added to `result[:-1]` and
      `f[..k]` subtracted from `result[1:]`. */
  function Subtracted(f: seq<real>, j: nat, k: nat): real
    requires |f| > 0 && k <= |f| && j <= |f|
  {
    Added(f, j, |f|) - (if 1 <= j <= k then f[j - 1] else 0.0)
  }

  /** `dx` along one line, as the numpy code does it: a zero buffer one
      longer than the line, its two ends set, the line added to the first n
      entries and subtracted from the last n, everything divided by h; the
      forward differences are `result[1:]`, the backward ones
      `result[:-1]`. An empty line fails (`f[-1]` raises IndexError). */
  method DiffLine(f: seq<real>, h: real) returns (r: Option<(seq<real>, seq<real>)>)
    requires h != 0.0
    ensures |f| == 0 <==> r.None?
    ensures r.Some? ==> r.value.0 == Forward(f, h) && r.value.1 == Backward(f, h)
  {
    if |f| == 0 {
      return None;
    }
    var n := |f|;
    var result := new real[n + 1](_ => 0.0);
    result[n] := f[n - 1];
    result[0] := -f[0];
    for k := 0 to n
      invariant forall j :: 0 <= j <= n ==> result[j] == Added(f, j, k)
    {
      result[k] := result[k] + f[k];
    }
    for k := 0 to n
      invariant forall j :: 0 <= j <= n ==> result[j] == Subtracted(f, j, k)
    {
      result[k + 1] := result[k + 1] - f[k];
    }
    for k := 0 to n + 1
      invariant forall j :: 0 <= j < k ==> result[j] == Subtracted(f, j, n) / h
      invariant forall j :: k <= j <= n ==> result[j] == Subtracted(f, j, n)
    {
      result[k] := result[k] / h;
    }
    BufferHoldsDiffs(f, h, result[..]);
    r := Some((result[1..], result[..n]));
  }

  /** The final buffer: its tail is the forward differences, its head the
      backward ones. */
  lemma BufferHoldsDiffs(f: seq<real>, h: real, buf: seq<real>)
    requires |f| > 0 && h != 0.0 && |buf| == |f| + 1
    requires forall j :: 0 <= j <= |f| ==> buf[j] == Subtracted(f, j, |f|) / h
    ensures buf[1..] == Forward(f, h) && buf[..|f|] == Backward(f, h)
  {
    var n := |f|;
    forall k | 0 <= k < n
      ensures buf[1..][k] == Forward(f, h)[k] && buf[..n][k] == Backward(f, h)[k]
    {
      assert Subtracted(f, k + 1, n) == ForwardRaw(f)[k];
      assert Subtracted(f, k, n) == BackwardRaw(f)[k];
    }
  }

  // -------------------------------------------------------- three dimensions

  /** The voxel one step further along `axis`, when there is one. */
  predicate HasNext(s: Shape3, axis: nat, i: nat, j: nat, k: nat)
    requires axis < 3
  {
    if axis == 0 then i + 1 < s.n0 else if axis == 1 then j + 1 < s.n1 else k + 1 < s.n2
  }

  /** The value one step further along `axis`. */
  function NextAt(f: Vol3, s: Shape3, axis: nat, i: nat, j: nat, k: nat): real
    requires HasShape(f, s) && axis < 3 && i < s.n0 && j < s.n1 && k < s.n2 && HasNext(s, axis, i, j, k)
  {
    if axis == 0 then f[i + 1][j][k] else if axis == 1 then f[i][j + 1][k] else f[i][j][k + 1]
  }

  /** Whether the voxel is not the first along `axis`. */
  predicate HasPrev(axis: nat, i: nat, j: nat, k: nat)
    requires axis < 3
  {
    if axis == 0 then i > 0 else if axis == 1 then j > 0 else k > 0
  }

  /** The value one step back along `axis`. */
  function PrevAt(f: Vol3, s: Shape3, axis: nat, i: nat, j: nat, k: nat): real
    requires HasShape(f, s) && axis < 3 && i < s.n0 && j < s.n1 && k < s.n2 && HasPrev(axis, i, j, k)
  {
    if axis == 0 then f[i - 1][j][k] else if axis == 1 then f[i][j - 1][k] else f[i][j][k - 1]
  }

  /** The forward and backward differences of a 3-D array along one axis. */
  datatype Diffs = Diffs(fwd: Vol3, bwd: Vol3)

  /** `dx` (axis 0), `dy` (axis 1), `dz` (axis 2) with step `h[axis]`. */
  function Grad(f: Vol3, s: Shape3, hs: Real3, axis: nat): (g: Diffs)
    requires HasShape(f, s) && axis < 3 && hs.At(axis) != 0.0
    ensures HasShape(g.fwd, s) && HasShape(g.bwd, s)
  {
    var h := hs.At(axis);
    Diffs(
      seq(s.n0, i requires 0 <= i < s.n0 => seq(s.n1, j requires 0 <= j < s.n1 => seq(s.n2, k requires 0 <= k < s.n2 =>
        if HasNext(s, axis, i, j, k) then (NextAt(f, s, axis, i, j, k) - f[i][j][k]) / h else 0.0))),
      seq(s.n0, i requires 0 <= i < s.n0 => seq(s.n1, j requires 0 <= j < s.n1 => seq(s.n2, k requires 0 <= k < s.n2 =>
        if HasPrev(axis, i, j, k) then (f[i][j][k] - PrevAt(f, s, axis, i, j, k)) / h else 0.0))))
  }

  /** `dx`/`dy`/`dz`: the differences, or None when the axis is empty
      (indexing `f[-1]` raises IndexError). */
  function Differences(f: Vol3, s: Shape3, hs: Real3, axis: nat): (r: Option<Diffs>)
    requires HasShape(f, s) && axis < 3 && hs.At(axis) != 0.0
    ensures r.None? <==> Dim(s, axis) == 0
  {
    if Dim(s, axis) == 0 then None else Some(Grad(f, s, hs, axis))
  }

  /** The line of `f` through (i, j, k) along `axis`, where the coordinate
      along `axis` is ignored. */
  function Line(f: Vol3, s: Shape3, axis: nat, i: nat, j: nat, k: nat): (l: seq<real>)
    requires HasShape(f, s) && axis < 3 && i < s.n0 && j < s.n1 && k < s.n2
    ensures |l| == Dim(s, axis)
  {
    if axis == 0 then seq(s.n0, t requires 0 <= t < s.n0 => f[t][j][k])
    else if axis == 1 then seq(s.n1, t requires 0 <= t < s.n1 => f[i][t][k])
    else seq(s.n2, t requires 0 <= t < s.n2 => f[i][j][t])
  }

  /** Every line of the 3-D differences along the axis is what the
      one-line kernel computes from the same line of f. */
  lemma GradAlongLines(f: Vol3, s: Shape3, hs: Real3, axis: nat, i: nat, j: nat, k: nat)
    requires HasShape(f, s) && axis < 3 && hs.At(axis) != 0.0 && i < s.n0 && j < s.n1 && k < s.n2
    ensures Line(Grad(f, s, hs, axis).fwd, s, axis, i, j, k) == Forward(Line(f, s, axis, i, j, k), hs.At(axis))
    ensures Line(Grad(f, s, hs, axis).bwd, s, axis, i, j, k) == Backward(Line(f, s, axis, i, j, k), hs.At(axis))
  {
    var l := Line(f, s, axis, i, j, k);
    forall t | 0 <= t < Dim(s, axis)
      ensures Line(Grad(f, s, hs, axis).fwd, s, axis, i, j, k)[t] == Forward(l, hs.At(axis))[t]
      ensures Line(Grad(f, s, hs, axis).bwd, s, axis, i, j, k)[t] == Backward(l, hs.At(axis))[t]
    {
      DiffAt(l, hs.At(axis), t);
      if axis == 0 {
        LineEntry(f, s, hs, axis, t, j, k, l, t);
      } else if axis == 1 {
        LineEntry(f, s, hs, axis, i, t, k, l, t);
      } else {
        LineEntry(f, s, hs, axis, i, j, t, l, t);
      }
    }
  }

  /** The differences at voxel (i, j, k), which sits at place t of its
      line l along `axis`. */
  lemma LineEntry(f: Vol3, s: Shape3, hs: Real3, axis: nat, i: nat, j: nat, k: nat, l: seq<real>, t: nat)
    requires HasShape(f, s) && axis < 3 && hs.At(axis) != 0.0 && i < s.n0 && j < s.n1 && k < s.n2
    requires l == Line(f, s, axis, i, j, k) && t == (if axis == 0 then i else if axis == 1 then j else k)
    ensures Line(Grad(f, s, hs, axis).fwd, s, axis, i, j, k)[t] ==
            (if t + 1 < |l| then (l[t + 1] - l[t]) / hs.At(axis) else 0.0)
    ensures Line(Grad(f, s, hs, axis).bwd, s, axis, i, j, k)[t] ==
            (if t > 0 then (l[t] - l[t - 1]) / hs.At(axis) else 0.0)
  {
    var g := Grad(f, s, hs, axis);
    assert Line(g.fwd, s, axis, i, j, k)[t] == g.fwd[i][j][k];
    assert Line(g.bwd, s, axis, i, j, k)[t] == g.bwd[i][j][k];
    assert l[t] == f[i][j][k];
    assert HasNext(s, axis, i, j, k) <==> t + 1 < |l|;
    if t + 1 < |l| {
      assert l[t + 1] == NextAt(f, s, axis, i, j, k);
    }
    if t > 0 {
      assert l[t - 1] == PrevAt(f, s, axis, i, j, k);
    }
  }

  // ------------------------------------------------------------ minmod

  /** `np.sign`. */
  function Sign(x: real): (r: real)
    ensures r == 0.0 <==> x == 0.0
  {
    if x > 0.0 then 1.0 else if x < 0.0 then -1.0 else 0.0
  }

  /** `np.minimum` on two reals. */
  function MinReal(a: real, b: real): (m: real)
    ensures m <= a && m <= b && (m == a || m == b)
  {
    if a <= b then a else b
  }

  /** `m`: 0.5·(sign a + sign b)·min(|a|, |b|). */
  function M(a: real, b: real): real
  {
    0.5 * (Sign(a) + Sign(b)) * MinReal(Abs(a), Abs(b))
  }

  /** The Python minmod agrees with the C++ one everywhere. */
  lemma MinModAgrees(a: real, b: real)
    ensures M(a, b) == Images.MinMod(a, b)
  {
    if a > 0.0 && b > 0.0 {
      assert M(a, b) == MinReal(a, b);
    } else if a < 0.0 && b < 0.0 {
      assert M(a, b) == -MinReal(-a, -b);
    } else {
      assert Sign(a) + Sign(b) == 0.0 || MinReal(Abs(a), Abs(b)) == 0.0;
    }
  }

  // -------------------------------------------------------------- dv

  /** Voxel-wise combination of two arrays of one shape. */
  function Zip(a: Vol3, b: Vol3, s: Shape3, op: (real, real) -> real): (c: Vol3)
    requires HasShape(a, s) && HasShape(b, s)
    ensures HasShape(c, s)
    ensures forall i, j, k :: 0 <= i < s.n0 && 0 <= j < s.n1 && 0 <= k < s.n2 ==>
      c[i][j][k] == op(a[i][j][k], b[i][j][k])
  {
    seq(s.n0, i requires 0 <= i < s.n0 => seq(s.n1, j requires 0 <= j < s.n1 => seq(s.n2, k requires 0 <= k < s.n2 =>
      op(a[i][j][k], b[i][j][k]))))
  }

  /** `np.where(s == 0, 0, a / s)` on one voxel. */
  function SafeQuotient(a: real, d: real): real
  {
    if d == 0.0 then 0.0 else a / d
  }

  /** The normaliser of one component: sqrt(own forward difference² plus
      the other two minmods²). */
  function Normaliser(fp: Vol3, m1: Vol3, m2: Vol3, s: Shape3, sqrt: real -> real): (n: Vol3)
    requires HasShape(fp, s) && HasShape(m1, s) && HasShape(m2, s)
    ensures HasShape(n, s)
  {
    var t := Zip(fp, m1, s, (a, b) => a * a + b * b);
    Zip(t, m2, s, (a, b) => sqrt(a + b * b))
  }

  /** `dv`: the sum over the three axes of the backward differences of the
      forward differences divided by their normaliser (0 where the
      normaliser is 0). None when an axis is empty. */
  function Dv(f: Vol3, s: Shape3, hs: Real3, sqrt: real -> real): (r: Option<Vol3>)
    requires HasShape(f, s) && hs.z != 0.0 && hs.y != 0.0 && hs.x != 0.0
    ensures r.None? <==> s.n0 == 0 || s.n1 == 0 || s.n2 == 0
    ensures r.Some? ==> HasShape(r.value, s)
  {
    if s.n0 == 0 || s.n1 == 0 || s.n2 == 0 then None
    else
      var gx, gy, gz := Grad(f, s, hs, 0), Grad(f, s, hs, 1), Grad(f, s, hs, 2);
      var mx, my, mz := Zip(gx.fwd, gx.bwd, s, M), Zip(gy.fwd, gy.bwd, s, M), Zip(gz.fwd, gz.bwd, s, M);
      var sx := Normaliser(gx.fwd, my, mz, s, sqrt);
      var sy := Normaliser(gy.fwd, mx, mz, s, sqrt);
      var sz := Normaliser(gz.fwd, my, mx, s, sqrt);
      var qx, qy, qz := Zip(gx.fwd, sx, s, SafeQuotient), Zip(gy.fwd, sy, s, SafeQuotient), Zip(gz.fwd, sz, s, SafeQuotient);
      var fx, fy, fz := Grad(qx, s, hs, 0).bwd, Grad(qy, s, hs, 1).bwd, Grad(qz, s, hs, 2).bwd;
      Some(Zip(Zip(fx, fy, s, (a, b) => a + b), fz, s, (a, b) => a + b))
  }

  /** A component whose normaliser is 0 contributes 0; otherwise its
      magnitude is at most 1 when `sqrt` is the square root. */
  lemma NormalisedComponentBounded(a: real, m1: real, m2: real, sqrt: real -> real)
    requires forall x :: x >= 0.0 ==> sqrt(x) >= 0.0 && sqrt(x) * sqrt(x) == x
    ensures var d := sqrt(a * a + m1 * m1 + m2 * m2);
            (d == 0.0 ==> SafeQuotient(a, d) == 0.0) && -1.0 <= SafeQuotient(a, d) <= 1.0
  {
    var x := a * a + m1 * m1 + m2 * m2;
    assert m1 * m1 >= 0.0 && m2 * m2 >= 0.0 by {
      SquareNonNegative(m1);
      SquareNonNegative(m2);
    }
    SquareNonNegative(a);
    var d := sqrt(x);
    if d != 0.0 {
      assert d * d >= a * a;
      QuotientBounded(a, d);
    }
  }

  lemma SquareNonNegative(x: real)
    ensures x * x >= 0.0
  {
    if x < 0.0 {
      assert x * x == (-x) * (-x);
    }
  }

  /** |a| <= d when a² <= d² and d > 0, so a / d lies in [-1, 1]. */
  lemma QuotientBounded(a: real, d: real)
    requires d > 0.0 && d * d >= a * a
    ensures -1.0 <= a / d <= 1.0
  {
    SquareGrows(a, d);
    SquareGrows(-a, d);
    var q := a / d;
    assert q * d == a;
    ScaleGrows(q, d);
    ScaleGrows(-q, d);
  }

  /** Squaring is strictly increasing on the non-negative reals. */
  lemma SquareGrows(x: real, y: real)
    requires y >= 0.0
    ensures x > y ==> x * x > y * y
  {
    if x > y {
      var e := x - y;
      assert x * x == y * y + 2.0 * y * e + e * e;
      assert e * e > 0.0;
      assert y * e >= 0.0;
    }
  }

  /** A factor above 1 enlarges a positive number. */
  lemma ScaleGrows(q: real, d: real)
    requires d > 0.0
    ensures q > 1.0 ==> q * d > d
  {
    if q > 1.0 {
      assert q * d - d == (q - 1.0) * d;
    }
  }

  /** A constant array has zero differences, so zero normalised
      differences and `dv` zero everywhere. */
  lemma ConstantHasZeroDv(f: Vol3, s: Shape3, hs: Real3, sqrt: real -> real, c: real)
    requires HasShape(f, s) && hs.z != 0.0 && hs.y != 0.0 && hs.x != 0.0
    requires s.n0 > 0 && s.n1 > 0 && s.n2 > 0
    requires forall i, j, k :: 0 <= i < s.n0 && 0 <= j < s.n1 && 0 <= k < s.n2 ==> f[i][j][k] == c
    ensures forall i, j, k :: 0 <= i < s.n0 && 0 <= j < s.n1 && 0 <= k < s.n2 ==> Dv(f, s, hs, sqrt).value[i][j][k] == 0.0
  {
    forall axis | 0 <= axis < 3
      ensures var g := Grad(f, s, hs, axis);
              forall i, j, k :: 0 <= i < s.n0 && 0 <= j < s.n1 && 0 <= k < s.n2 ==> g.fwd[i][j][k] == 0.0
    {
    }
    var gx, gy, gz := Grad(f, s, hs, 0), Grad(f, s, hs, 1), Grad(f, s, hs, 2);
    var mx, my, mz := Zip(gx.fwd, gx.bwd, s, M), Zip(gy.fwd, gy.bwd, s, M), Zip(gz.fwd, gz.bwd, s, M);
    var sx := Normaliser(gx.fwd, my, mz, s, sqrt);
    var sy := Normaliser(gy.fwd, mx, mz, s, sqrt);
    var sz := Normaliser(gz.fwd, my, mx, s, sqrt);
    var qx, qy, qz := Zip(gx.fwd, sx, s, SafeQuotient), Zip(gy.fwd, sy, s, SafeQuotient), Zip(gz.fwd, sz, s, SafeQuotient);
    ZeroQuotient(gx.fwd, sx, s);
    ZeroQuotient(gy.fwd, sy, s);
    ZeroQuotient(gz.fwd, sz, s);
    ZeroBackward(qx, s, hs, 0);
    ZeroBackward(qy, s, hs, 1);
    ZeroBackward(qz, s, hs, 2);
  }

  /** Zero numerators give zero safe quotients. */
  lemma ZeroQuotient(a: Vol3, d: Vol3, s: Shape3)
    requires HasShape(a, s) && HasShape(d, s)
    requires forall i, j, k :: 0 <= i < s.n0 && 0 <= j < s.n1 && 0 <= k < s.n2 ==> a[i][j][k] == 0.0
    ensures forall i, j, k :: 0 <= i < s.n0 && 0 <= j < s.n1 && 0 <= k < s.n2 ==>
      Zip(a, d, s, SafeQuotient)[i][j][k] == 0.0
  {
  }

  /** An all-zero array has all-zero backward differences. */
  lemma ZeroBackward(q: Vol3, s: Shape3, hs: Real3, axis: nat)
    requires HasShape(q, s) && axis < 3 && hs.At(axis) != 0.0
    requires forall i, j, k :: 0 <= i < s.n0 && 0 <= j < s.n1 && 0 <= k < s.n2 ==> q[i][j][k] == 0.0
    ensures forall i, j, k :: 0 <= i < s.n0 && 0 <= j < s.n1 && 0 <= k < s.n2 ==>
      Grad(q, s, hs, axis).bwd[i][j][k] == 0.0
  {
  }
}
