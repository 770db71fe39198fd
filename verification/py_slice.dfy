/** Python/numpy basic slicing with step 1 (`s[start:stop]`, either bound may be
    omitted or negative) and indexing, on sequences and on 3-D arrays. */
module PySlice {
  import opened Wrappers

  /** A slice bound after normalisation: a negative bound counts from the end,
      then the bound is clamped into [0, n]. */
  function Bound(i: int, n: nat): (b: nat)
    ensures b <= n
    ensures 0 <= i <= n ==> b == i
    ensures i < 0 && i + n >= 0 ==> b == i + n
    ensures i + n < 0 ==> b == 0
    ensures i > n ==> b == n
  {
    if i < 0 then (if i + n < 0 then 0 else i + n)
    else if i > n then n
    else i
  }

  /** The two bounds of `[start:stop]` with an omitted bound meaning the whole range. */
  datatype Range = Range(start: Option<int>, stop: Option<int>)

  const Everything: Range := Range(None, None)

  function Lo(r: Range, n: nat): (a: nat)
    ensures a <= n
  {
    match r.start
    case None => 0
    case Some(i) => Bound(i, n)
  }

  function Hi(r: Range, n: nat): (b: nat)
    ensures b <= n
  {
    match r.stop
    case None => n
    case Some(i) => Bound(i, n)
  }

  /** Number of elements a step-1 slice selects from a length-n axis. */
  function Len(r: Range, n: nat): (m: nat)
    ensures m <= n
    ensures Lo(r, n) + m <= n
    ensures m == 0 || m == Hi(r, n) - Lo(r, n)
  {
    if Lo(r, n) < Hi(r, n) then Hi(r, n) - Lo(r, n) else 0
  }

  /** `s[start:stop]`. */
  function Slice<T>(s: seq<T>, r: Range): (t: seq<T>)
    ensures |t| == Len(r, |s|)
    ensures forall i :: 0 <= i < |t| ==> t[i] == s[Lo(r, |s|) + i]
  {
    var a := Lo(r, |s|);
    s[a..a + Len(r, |s|)]
  }

  /** A slice whose bounds already lie in [0, |s|] selects exactly s[lo..hi]. */
  lemma SliceInRange<T>(s: seq<T>, lo: int, hi: int)
    requires 0 <= lo <= hi <= |s|
    ensures Slice(s, Range(Some(lo), Some(hi))) == s[lo..hi]
  {
  }

  /** Python indexing `s[i]`: negative indices count from the end; out of range is an IndexError. */
  function Index(i: int, n: nat): (k: Option<nat>)
    ensures k.Some? <==> 0 <= i + n && i < n
    ensures k.Some? ==> k.value < n && (k.value == i || k.value == i + n)
  {
    if 0 <= i < n then Some(i) else if 0 <= i + n && i < 0 then Some(i + n) else None
  }
}

/** Three-dimensional numpy arrays as nested sequences. */
module NdArray {
  import opened Wrappers
  import opened PySlice

  type Vol3 = seq<seq<seq<real>>>

  datatype Shape3 = Shape3(n0: nat, n1: nat, n2: nat)

  /** A vector of three integers (an index, an extent or a displacement, axis order z, y, x). */
  datatype Int3 = Int3(z: int, y: int, x: int)
  {
    function At(axis: nat): int
      requires axis < 3
    {
      if axis == 0 then z else if axis == 1 then y else x
    }
  }

  /** A vector of three reals (a centroid or a physical displacement). */
  datatype Real3 = Real3(z: real, y: real, x: real)
  {
    function At(axis: nat): real
      requires axis < 3
    {
      if axis == 0 then z else if axis == 1 then y else x
    }
  }

  function ShapeOf(s: Shape3): Int3 { Int3(s.n0, s.n1, s.n2) }

  function Dim(s: Shape3, axis: nat): nat
    requires axis < 3
  {
    if axis == 0 then s.n0 else if axis == 1 then s.n1 else s.n2
  }

  predicate HasShape(v: Vol3, s: Shape3)
  {
    |v| == s.n0 &&
    (forall i :: 0 <= i < |v| ==> |v[i]| == s.n1) &&
    (forall i, j :: 0 <= i < |v| && 0 <= j < |v[i]| ==> |v[i][j]| == s.n2)
  }

  function Volume(s: Shape3): nat { s.n0 * s.n1 * s.n2 }

  /** `v[r0, r1, r2]` for three step-1 slices. */
  function Crop(v: Vol3, s: Shape3, r0: Range, r1: Range, r2: Range): (c: Vol3)
    requires HasShape(v, s)
    ensures HasShape(c, Shape3(Len(r0, s.n0), Len(r1, s.n1), Len(r2, s.n2)))
    ensures forall i, j, k :: 0 <= i < Len(r0, s.n0) && 0 <= j < Len(r1, s.n1) && 0 <= k < Len(r2, s.n2) ==>
      c[i][j][k] == v[Lo(r0, s.n0) + i][Lo(r1, s.n1) + j][Lo(r2, s.n2) + k]
  {
    var a0, a1, a2 := Lo(r0, s.n0), Lo(r1, s.n1), Lo(r2, s.n2);
    var m0, m1, m2 := Len(r0, s.n0), Len(r1, s.n1), Len(r2, s.n2);
    seq(m0, i requires 0 <= i < m0 =>
      seq(m1, j requires 0 <= j < m1 =>
        seq(m2, k requires 0 <= k < m2 => v[a0 + i][a1 + j][a2 + k])))
  }

  /** The C-order flattening `v.ravel()`. */
  function Ravel(v: Vol3, s: Shape3): (f: seq<real>)
    requires HasShape(v, s)
    ensures |f| == Volume(s)
  {
    RavelRows(v, s, |v|)
  }

  function RavelRows(v: Vol3, s: Shape3, m: nat): (f: seq<real>)
    requires HasShape(v, s) && m <= s.n0
    ensures |f| == m * (s.n1 * s.n2)
  {
    if m == 0 then []
    else RavelRows(v, s, m - 1) + RavelPlane(v[m - 1], s.n1, s.n2, s.n1)
  }

  function RavelPlane(p: seq<seq<real>>, n1: nat, n2: nat, m: nat): (f: seq<real>)
    requires |p| == n1 && m <= n1 && forall j :: 0 <= j < n1 ==> |p[j]| == n2
    ensures |f| == m * n2
  {
    if m == 0 then [] else RavelPlane(p, n1, n2, m - 1) + p[m - 1]
  }

  predicate VoxelsWithin(v: Vol3, s: Shape3, lo: real, hi: real)
    requires HasShape(v, s)
  {
    forall i, j, k :: 0 <= i < s.n0 && 0 <= j < s.n1 && 0 <= k < s.n2 ==> lo <= v[i][j][k] <= hi
  }

  /** Flattening keeps values: bounds on every voxel bound every entry of the ravel. */
  lemma {:induction false} RavelWithin(v: Vol3, s: Shape3, m: nat, lo: real, hi: real)
    requires HasShape(v, s) && m <= s.n0 && VoxelsWithin(v, s, lo, hi)
    ensures forall t :: 0 <= t < |RavelRows(v, s, m)| ==> lo <= RavelRows(v, s, m)[t] <= hi
  {
    if m > 0 {
      RavelWithin(v, s, m - 1, lo, hi);
      PlaneWithin(v[m - 1], s.n1, s.n2, s.n1, lo, hi);
    }
  }

  lemma {:induction false} PlaneWithin(p: seq<seq<real>>, n1: nat, n2: nat, m: nat, lo: real, hi: real)
    requires |p| == n1 && m <= n1 && forall j :: 0 <= j < n1 ==> |p[j]| == n2
    requires forall j, k :: 0 <= j < n1 && 0 <= k < n2 ==> lo <= p[j][k] <= hi
    ensures forall t :: 0 <= t < |RavelPlane(p, n1, n2, m)| ==> lo <= RavelPlane(p, n1, n2, m)[t] <= hi
  {
    if m > 0 {
      PlaneWithin(p, n1, n2, m - 1, lo, hi);
    }
  }

  /** Voxel-wise maximum of an array with at least one voxel. */
  function Max(v: Vol3, s: Shape3): (m: real)
    requires HasShape(v, s) && Volume(s) > 0
  {
    SeqMax(Ravel(v, s))
  }

  function SeqMax(f: seq<real>): (m: real)
    requires |f| > 0
    ensures forall i :: 0 <= i < |f| ==> f[i] <= m
    ensures exists i :: 0 <= i < |f| && f[i] == m
  {
    if |f| == 1 then f[0]
    else
      var r := SeqMax(f[1..]);
      assert forall i :: 1 <= i < |f| ==> f[i] == f[1..][i - 1];
      if f[0] >= r then f[0] else r
  }
}
