/** The image buffer of the deconvolution library
    (`deconvolve/cpp/src/image.hpp`, `image.cpp`): a 3-D image stored in
    FFTW's padded real-to-complex layout, where every row of n3 real values
    is followed by padding up to `last_dim = 2*(n3/2+1)` entries. The
    buffer is an `array<real>` owned by one `Image`; FFT, convolution and
    the floating-point helpers are not modelled. */
module Images {
  import opened Wrappers
  import opened PyNum
  import opened NdArray
  import opened FftwSettings

  // ------------------------------------------------------------ the layout

  /** `last_dim`: the padded length of a row, room for n3/2+1 complex values. */
  function LastDim(n3: nat): (l: nat)
    ensures n3 < l <= n3 + 2 && l % 2 == 0
  {
    2 * (n3 / 2 + 1)
  }

  /** Number of rows, n1·n2 in the library's naming. */
  function Rows(n: Shape3): nat { n.n0 * n.n1 }

  /** `data_size`: the length of the padded buffer. */
  function DataSize(n: Shape3): nat { Rows(n) * LastDim(n.n2) }

  predicate Positive(n: Shape3) { n.n0 > 0 && n.n1 > 0 && n.n2 > 0 }

  /** Start of row r in rows of width w; r < rows keeps the whole row below rows·w. */
  function RowStart(r: nat, w: nat, rows: nat): (o: nat)
    requires r < rows
    ensures o == r * w && o + w <= rows * w
  {
    MulAtLeast(rows - r, w);
    assert rows * w == r * w + (rows - r) * w;
    r * w
  }

  /** A row index below `rows` for every flat index below rows·w. */
  lemma RowBelow(t: nat, w: nat, rows: nat)
    requires w > 0 && t < rows * w
    ensures t / w < rows
  {
    var r := t / w;
    if r >= rows {
      MulAtLeast(w, r - rows);
      assert false;
    }
  }

  /** Where voxel t of the C-order image lives in the padded buffer. */
  function Pad(t: nat, n: Shape3): (p: nat)
    requires Positive(n) && t < Volume(n)
    ensures p < DataSize(n)
    ensures p % LastDim(n.n2) == t % n.n2 < n.n2
  {
    RowBelow(t, n.n2, Rows(n));
    var p := RowStart(t / n.n2, LastDim(n.n2), Rows(n)) + t % n.n2;
    ModUnique(p, LastDim(n.n2), t / n.n2, t % n.n2);
    p
  }

  /** Row r, column c of the image is at `r*n3 + c` unpadded and at
      `r*last_dim + c` padded. */
  lemma PadRowColumn(r: nat, c: nat, n: Shape3)
    requires Positive(n) && r < Rows(n) && c < n.n2
    ensures RowStart(r, n.n2, Rows(n)) + c < Volume(n)
    ensures Pad(RowStart(r, n.n2, Rows(n)) + c, n) == RowStart(r, LastDim(n.n2), Rows(n)) + c
  {
    ModUnique(RowStart(r, n.n2, Rows(n)) + c, n.n2, r, c);
  }

  /** A padded position holds an image value iff its column is below n3. */
  predicate IsReal(p: nat, n: Shape3) { p % LastDim(n.n2) < n.n2 }

  /** Row i of a padded buffer without its padding. */
  function Row(a: seq<real>, n: Shape3, i: nat): (row: seq<real>)
    requires Positive(n) && |a| == DataSize(n) && i < Rows(n)
    ensures |row| == n.n2
  {
    var o := RowStart(i, LastDim(n.n2), Rows(n));
    a[o..o + n.n2]
  }

  /** The image values of the first m rows of a padded buffer, row after row. */
  function RealRows(a: seq<real>, n: Shape3, m: nat): (u: seq<real>)
    requires Positive(n) && |a| == DataSize(n) && m <= Rows(n)
    ensures |u| == m * n.n2
  {
    if m == 0 then [] else RealRows(a, n, m - 1) + Row(a, n, m - 1)
  }

  /** Voxel t of the first m rows sits at its padded position. */
  lemma {:induction false} RealRowsAt(a: seq<real>, n: Shape3, m: nat, t: nat)
    requires Positive(n) && |a| == DataSize(n) && m <= Rows(n) && t < m * n.n2
    ensures t < Volume(n) && RealRows(a, n, m)[t] == a[Pad(t, n)]
  {
    var n3, L := n.n2, LastDim(n.n2);
    assert m > 0 by {
      if m == 0 { assert false; }
    }
    var o := RowStart(m - 1, n3, Rows(n));
    var oL := RowStart(m - 1, L, Rows(n));
    assert m * n3 == o + n3;
    assert t < Volume(n);
    var prev := RealRows(a, n, m - 1);
    assert RealRows(a, n, m) == prev + a[oL..oL + n3];
    assert |prev| == o;
    if t < o {
      RealRowsAt(a, n, m - 1, t);
    } else {
      ModUnique(t, n3, m - 1, t - o);
      assert Pad(t, n) == oL + (t - o);
    }
  }

  /** Rows below m read only the buffer below m·last_dim. */
  lemma {:induction false} RealRowsFrame(a: seq<real>, b: seq<real>, n: Shape3, m: nat)
    requires Positive(n) && |a| == DataSize(n) && |b| == DataSize(n) && m <= Rows(n)
    requires m * LastDim(n.n2) <= |a|
    requires a[..m * LastDim(n.n2)] == b[..m * LastDim(n.n2)]
    ensures RealRows(a, n, m) == RealRows(b, n, m)
  {
    if m > 0 {
      var L := LastDim(n.n2);
      var o := RowStart(m - 1, L, Rows(n));
      assert m * L == o + L;
      assert a[..o * 1] == a[..m * L][..o];
      assert b[..o * 1] == b[..m * L][..o];
      assert (m - 1) * L == o;
      RealRowsFrame(a, b, n, m - 1);
      assert a[o..o + n.n2] == a[..m * L][o..o + n.n2];
      assert b[o..o + n.n2] == b[..m * L][o..o + n.n2];
    }
  }

  /** The image a padded buffer holds, in C order (what `get_image` returns). */
  function RealPart(a: seq<real>, n: Shape3): (u: seq<real>)
    requires Positive(n) && |a| == DataSize(n)
    ensures |u| == Volume(n)
    ensures forall t :: 0 <= t < |u| ==> u[t] == a[Pad(t, n)]
  {
    var u := RealRows(a, n, Rows(n));
    forall t | 0 <= t < |u|
      ensures u[t] == a[Pad(t, n)]
    {
      RealRowsAt(a, n, Rows(n), t);
    }
    u
  }

  /** The first buffer element is the first voxel. */
  lemma FirstVoxel(a: seq<real>, n: Shape3)
    requires Positive(n) && |a| == DataSize(n)
    ensures RealPart(a, n)[0] == a[0]
  {
    ModUnique(0, n.n2, 0, 0);
    assert Pad(0, n) == 0;
  }

  /** The voxel whose home is the image position p: row p / last_dim,
      column p % last_dim. */
  function Unpad(p: nat, n: Shape3): (t: nat)
    requires Positive(n) && p < DataSize(n) && IsReal(p, n)
    ensures t < Volume(n) && Pad(t, n) == p
  {
    var L := LastDim(n.n2);
    var r, c := p / L, p % L;
    RowBelow(p, L, Rows(n));
    assert RowStart(r, L, Rows(n)) + c == p;
    PadRowColumn(r, c, n);
    RowStart(r, n.n2, Rows(n)) + c
  }

  /** Every padded position is either the home of exactly one voxel or padding. */
  lemma PadCovers(p: nat, n: Shape3)
    requires Positive(n) && p < DataSize(n)
    ensures IsReal(p, n) ==> exists t :: 0 <= t < Volume(n) && Pad(t, n) == p
    ensures forall t :: 0 <= t < Volume(n) && Pad(t, n) == p ==> IsReal(p, n)
  {
    if IsReal(p, n) {
      var t := Unpad(p, n);
    }
  }

  /** `RealPart` reads only the image positions: two buffers hold the same
      image iff they agree on every position that is not padding. */
  lemma RealPartIgnoresPadding(a: seq<real>, b: seq<real>, n: Shape3)
    requires Positive(n) && |a| == DataSize(n) && |b| == DataSize(n)
    ensures RealPart(a, n) == RealPart(b, n) <==>
              forall p :: 0 <= p < DataSize(n) && IsReal(p, n) ==> a[p] == b[p]
  {
    if RealPart(a, n) == RealPart(b, n) {
      forall p | 0 <= p < DataSize(n) && IsReal(p, n)
        ensures a[p] == b[p]
      {
        PadCovers(p, n);
        var t :| 0 <= t < Volume(n) && Pad(t, n) == p;
        assert RealPart(a, n)[t] == RealPart(b, n)[t];
      }
    }
  }

  // ----------------------------------------------------------- comparisons

  /** The `same_voxel` tolerance. */
  const VoxelTol: real := 0.0000000000001

  /** `same_voxel`: every axis differs by less than the tolerance. */
  predicate SameVoxel(a: Real3, b: Real3)
  {
    Abs(a.z - b.z) < VoxelTol && Abs(a.y - b.y) < VoxelTol && Abs(a.x - b.x) < VoxelTol
  }

  /** `same_voxel` is symmetric, but not transitive: two images can each
      match a third and not each other. */
  lemma SameVoxelNotTransitive()
    ensures SameVoxel(Real3(0.0, 0.0, 0.0), Real3(0.0, 0.0, 0.00000000000006))
    ensures SameVoxel(Real3(0.0, 0.0, 0.00000000000006), Real3(0.0, 0.0, 0.00000000000012))
    ensures !SameVoxel(Real3(0.0, 0.0, 0.0), Real3(0.0, 0.0, 0.00000000000012))
  {
  }

  // ------------------------------------------------------ voxel operations

  /** The two in-place voxel operations. */
  datatype VoxelOp = InvDivide | Product

  /** One voxel of `invdivide_image` (this = image/this, 0 where this <= 0)
      or `prod_image` (this = image·this). */
  function Apply(op: VoxelOp, v: real, w: real): (r: real)
    ensures op == InvDivide ==> (v <= 0.0 ==> r == 0.0) && (v > 0.0 ==> r * v == w)
    ensures op == Product ==> r == w * v
  {
    match op
    case InvDivide => if v <= 0.0 then 0.0 else w / v
    case Product => w * v
  }

  /** The buffer after an in-place operation: image positions combined,
      padding untouched. */
  function Combined(op: VoxelOp, a: seq<real>, b: seq<real>, n: Shape3): (c: seq<real>)
    requires |a| == |b|
  {
    seq(|a|, p requires 0 <= p < |a| => if IsReal(p, n) then Apply(op, a[p], b[p]) else a[p])
  }

  /** Voxel by voxel: the image held after the operation is the operation
      applied to the two images; the padding is as before. */
  lemma CombinedVoxelwise(op: VoxelOp, a: seq<real>, b: seq<real>, n: Shape3)
    requires Positive(n) && |a| == DataSize(n) && |b| == DataSize(n)
    ensures forall t :: 0 <= t < Volume(n) ==>
              RealPart(Combined(op, a, b, n), n)[t] == Apply(op, RealPart(a, n)[t], RealPart(b, n)[t])
    ensures forall p :: 0 <= p < |a| && !IsReal(p, n) ==> Combined(op, a, b, n)[p] == a[p]
  {
  }

  /** `m`, the minmod limiter: 0 unless both arguments share a strict sign,
      otherwise the one of smaller magnitude. */
  function MinMod(a: real, b: real): (r: real)
    ensures !((a < 0.0 && b < 0.0) || (a > 0.0 && b > 0.0)) ==> r == 0.0
    ensures (a < 0.0 && b < 0.0) || (a > 0.0 && b > 0.0) ==>
              (r == a || r == b) && Abs(r) <= Abs(a) && Abs(r) <= Abs(b)
  {
    if a < 0.0 && b < 0.0 then (if a >= b then a else b)
    else if a > 0.0 && b > 0.0 then (if a < b then a else b)
    else 0.0
  }

  /** `m` is symmetric in its arguments. */
  lemma MinModSymmetric(a: real, b: real)
    ensures MinMod(a, b) == MinMod(b, a)
  {
  }

  // ---------------------------------------------------------- statistics

  /** `get_stats`: minimum and maximum attained, and the sum. */
  datatype Stats = Stats(min: real, max: real, sum: real)

  predicate IsStats(s: Stats, u: seq<real>)
  {
    s.sum == Sum(u) &&
    (forall t :: 0 <= t < |u| ==> s.min <= u[t] <= s.max) &&
    (exists t :: 0 <= t < |u| && u[t] == s.min) &&
    (exists t :: 0 <= t < |u| && u[t] == s.max)
  }

  /** The statistics of a non-empty image, computed left to right. */
  function StatsOf(u: seq<real>): (s: Stats)
    requires |u| > 0
    ensures IsStats(s, u)
  {
    assert u[..|u|] == u;
    StatsTo(u, |u|)
  }

  /** The statistics of the first k values. */
  function StatsTo(u: seq<real>, k: nat): (s: Stats)
    requires 0 < k <= |u|
    ensures IsStats(s, u[..k])
  {
    if k == 1 then
      assert u[..1] == [u[0]] && u[..1][0] == u[0];
      SumSingle(u[0]);
      Stats(u[0], u[0], u[0])
    else
      var p := StatsTo(u, k - 1);
      var x := u[k - 1];
      StatsStep(p, u[..k - 1], x);
      assert u[..k - 1] + [x] == u[..k];
      Stats(if x < p.min then x else p.min, if x > p.max then x else p.max, p.sum + x)
  }

  /** The statistics of an image extended by one value. */
  lemma StatsStep(p: Stats, u: seq<real>, x: real)
    requires IsStats(p, u)
    ensures IsStats(Stats(if x < p.min then x else p.min, if x > p.max then x else p.max, p.sum + x), u + [x])
  {
    var w := u + [x];
    assert w[..|w| - 1] == u;
    var i :| 0 <= i < |u| && u[i] == p.min;
    var j :| 0 <= j < |u| && u[j] == p.max;
    assert w[i] == p.min && w[j] == p.max && w[|u|] == x;
  }

  /** The statistics of an image are unique: `get_stats` has one answer. */
  lemma StatsUnique(s: Stats, t: Stats, u: seq<real>)
    requires IsStats(s, u) && IsStats(t, u)
    ensures s == t
  {
    var i :| 0 <= i < |u| && u[i] == s.min;
    var j :| 0 <= j < |u| && u[j] == t.min;
    var k :| 0 <= k < |u| && u[k] == s.max;
    var l :| 0 <= l < |u| && u[l] == t.max;
  }

  /** The running state of `get_stats` after the values in `pre`, starting
      from min = max = `first`: an index -1 means the start value is still
      the extreme. */
  ghost predicate StatsSoFar(cmin: real, cmax: real, csum: real, minAt: int, maxAt: int,
                             pre: seq<real>, first: real)
  {
    csum == Sum(pre) &&
    (forall t :: 0 <= t < |pre| ==> cmin <= pre[t] <= cmax) &&
    cmin <= first <= cmax &&
    ((minAt == -1 && cmin == first) || (0 <= minAt < |pre| && pre[minAt] == cmin)) &&
    ((maxAt == -1 && cmax == first) || (0 <= maxAt < |pre| && pre[maxAt] == cmax))
  }

  /** Once every value is folded in, the running statistics are those of
      the values (the first one is among them). */
  lemma SoFarIsStats(cmin: real, cmax: real, csum: real, minAt: int, maxAt: int, pre: seq<real>)
    requires |pre| > 0 && StatsSoFar(cmin, cmax, csum, minAt, maxAt, pre, pre[0])
    ensures IsStats(Stats(cmin, cmax, csum), pre)
  {
    var i := if minAt == -1 then 0 else minAt;
    var j := if maxAt == -1 then 0 else maxAt;
    assert pre[i] == cmin && pre[j] == cmax;
  }

  /** The squared differences of the first k voxel pairs, added left to
      right. */
  function SqDistTo(u: seq<real>, w: seq<real>, k: nat): real
    requires |u| == |w| && k <= |u|
  {
    if k == 0 then 0.0 else SqDistTo(u, w, k - 1) + Sq(u[k - 1] - w[k - 1])
  }

  /** What `nrm2` returns: the sum of squared differences. */
  function SqDist(u: seq<real>, w: seq<real>): real
    requires |u| == |w|
  {
    SqDistTo(u, w, |u|)
  }

  /** Extending both images does not change the sum over a prefix. */
  lemma {:induction false} SqDistToPrefix(u: seq<real>, w: seq<real>, u2: seq<real>, w2: seq<real>, k: nat)
    requires |u| == |w| && |u2| == |w2| && k <= |u|
    ensures SqDistTo(u + u2, w + w2, k) == SqDistTo(u, w, k)
    decreases k
  {
    if k > 0 {
      SqDistToPrefix(u, w, u2, w2, k - 1);
      assert (u + u2)[k - 1] == u[k - 1] && (w + w2)[k - 1] == w[k - 1];
    }
  }

  /** One more voxel pair adds its squared difference. */
  lemma SqDistAppend(u: seq<real>, w: seq<real>, x: real, y: real)
    requires |u| == |w|
    ensures SqDist(u + [x], w + [y]) == SqDist(u, w) + Sq(x - y)
  {
    SqDistToPrefix(u, w, [x], [y], |u|);
    assert (u + [x])[|u|] == x && (w + [y])[|u|] == y;
  }

  /** Squared differences add up over concatenated images. */
  lemma {:induction false} SqDistConcat(u1: seq<real>, w1: seq<real>, u2: seq<real>, w2: seq<real>)
    requires |u1| == |w1| && |u2| == |w2|
    ensures SqDist(u1 + u2, w1 + w2) == SqDist(u1, w1) + SqDist(u2, w2)
    decreases |u2|
  {
    if |u2| == 0 {
      assert u1 + u2 == u1 && w1 + w2 == w1;
    } else {
      var k := |u2| - 1;
      var x, y := u2[k], w2[k];
      SqDistConcat(u1, w1, u2[..k], w2[..k]);
      SqDistAppend(u1 + u2[..k], w1 + w2[..k], x, y);
      SqDistAppend(u2[..k], w2[..k], x, y);
      assert u2[..k] + [x] == u2 && w2[..k] + [y] == w2;
      assert (u1 + u2[..k]) + [x] == u1 + u2 && (w1 + w2[..k]) + [y] == w1 + w2;
    }
  }

  /** Over a prefix: never negative, and zero exactly when the prefixes
      agree. */
  lemma {:induction false} SqDistToZeroIff(u: seq<real>, w: seq<real>, k: nat)
    requires |u| == |w| && k <= |u|
    ensures SqDistTo(u, w, k) >= 0.0
    ensures SqDistTo(u, w, k) == 0.0 <==> u[..k] == w[..k]
    decreases k
  {
    if k > 0 {
      SqDistToZeroIff(u, w, k - 1);
      var x := u[k - 1] - w[k - 1];
      assert Sq(x) >= 0.0;
      if SqDistTo(u, w, k) == 0.0 {
        SqZero(x);
        assert u[..k] == u[..k - 1] + [u[k - 1]] && w[..k] == w[..k - 1] + [w[k - 1]];
      }
      if u[..k] == w[..k] {
        assert u[..k - 1] == u[..k][..k - 1] && w[..k - 1] == w[..k][..k - 1];
        assert u[k - 1] == u[..k][k - 1] && w[k - 1] == w[..k][k - 1];
      }
    }
  }

  /** `nrm2` is never negative, and is zero exactly for identical images. */
  lemma SqDistZeroIff(u: seq<real>, w: seq<real>)
    requires |u| == |w|
    ensures SqDist(u, w) >= 0.0
    ensures SqDist(u, w) == 0.0 <==> u == w
  {
    SqDistToZeroIff(u, w, |u|);
    assert u[..|u|] == u && w[..|w|] == w;
  }

  /** The header calls `nrm2` a Euclidean norm, but the code returns its
      square: a one-voxel image of value 2 is at distance 4 from 0. */
  lemma Nrm2IsSquared()
    ensures SqDist([2.0], [0.0]) == 4.0
  {
    assert SqDist([2.0], [0.0]) == SqDistTo([2.0], [0.0], 0) + Sq(2.0 - 0.0);
  }

  // ----------------------------------------------------------- the class

  datatype ImageError =
    | InconsistentSize   // set: data length is neither 0 nor n1·n2·n3
    | EmptyImage         // get_image, get_stats, nrm2 on an unallocated image
    | Incompatible       // copy_data, invdivide_image, prod_image

  /** `Image<T>`: a buffer it owns exclusively (copying is deleted), its
      dimensions and voxel sizes, the settings it was built with and its two
      FFTW plans. */
  class Image {
    var settings: ImageSettings?
    var data: array?<real>
    var dims: Shape3
    var voxel: Real3
    var planForward: Plan
    var planInverse: Plan

    /** An allocated image has positive dimensions and a buffer of
        `data_size`; an unallocated one has been released. */
    ghost predicate Valid()
      reads this
    {
      if data == null then
        dims == Shape3(0, 0, 0) && voxel == Real3(0.0, 0.0, 0.0) && planForward == Null && planInverse == Null
      else
        Positive(dims) && data.Length == DataSize(dims)
    }

    /** `operator bool`: memory has been allocated. */
    predicate Allocated()
      reads this
    {
      data != null
    }

    /** The image the buffer holds. */
    ghost function Voxels(): (u: seq<real>)
      reads this, data
      requires Valid() && data != null
      ensures |u| == Volume(dims)
    {
      RealPart(data[..], dims)
    }

    /** The allocating constructor: a fresh buffer of unspecified contents. */
    constructor (s: ImageSettings?, n: Shape3, v: Real3)
      requires Positive(n)
      ensures Valid() && data != null && fresh(data)
      ensures settings == s && dims == n && voxel == v
      ensures planForward == Null && planInverse == Null
    {
      settings := s;
      dims, voxel := n, v;
      planForward, planInverse := Null, Null;
      data := new real[DataSize(n)];
    }

    /** `same_dims`. */
    predicate SameDims(n: Shape3)
      reads this
    {
      dims == n
    }

    /** `same_settings`: both pointers set and the ids equal. */
    predicate SameSettings(s: ImageSettings?)
      reads this, settings, s
      ensures SameSettings(s) <==> settings != null && s != null && settings.id == s.id
    {
      settings != null && s != null && settings.SameShared(s)
    }

    /** `compatible`: both allocated, same dimensions, same voxel sizes. */
    predicate Compatible(im: Image)
      reads this, im
    {
      data != null && im.data != null && dims == im.dims && SameVoxel(voxel, im.voxel)
    }

    /** `release_data`: drop the plans and the buffer, zero the sizes. */
    method ReleaseData()
      modifies this
      ensures Valid() && data == null
      ensures settings == old(settings)
    {
      planForward, planInverse := Null, Null;
      data := null;
      dims := Shape3(0, 0, 0);
      voxel := Real3(0.0, 0.0, 0.0);
    }

    /** `set`: reject a vector whose length is neither 0 nor n1·n2·n3 before
        touching anything; otherwise reallocate and copy the vector row by
        row into the padded layout. */
    method Set(src: seq<real>, n: Shape3, v: Real3) returns (err: Option<ImageError>)
      requires Valid() && Positive(n)
      modifies this
      ensures Valid()
      ensures |src| != 0 && |src| != Volume(n) ==>
                err == Some(InconsistentSize) && data == old(data) && dims == old(dims) &&
                voxel == old(voxel) && planForward == old(planForward) && planInverse == old(planInverse)
      ensures !(|src| != 0 && |src| != Volume(n)) ==>
                err == None && data != null && fresh(data) && dims == n && voxel == v &&
                planForward == Null && planInverse == Null
      ensures |src| == Volume(n) ==> data != null && Voxels() == src
      ensures settings == old(settings)
    {
      if |src| != 0 && |src| != Volume(n) {
        return Some(InconsistentSize);
      }
      ReleaseData();
      dims := n;
      voxel := v;
      data := new real[DataSize(n)];
      if |src| != 0 {
        CopyIn(src);
      }
      err := None;
    }

    /** The row-by-row copy of `set`. */
    method CopyIn(src: seq<real>)
      requires Valid() && data != null && |src| == Volume(dims)
      modifies data
      ensures Voxels() == src
    {
      var rows, n3 := Rows(dims), dims.n2;
      var i, s := 0, 0;
      while i < rows
        invariant 0 <= i <= rows && 0 <= s <= |src|
        invariant RealRows(data[..], dims, i) == src[..s]
      {
        CopyRow(src, i, s);
        i, s := i + 1, s + n3;
      }
      assert s == |src|;
      assert src[..s] == src;
      assert RealPart(data[..], dims) == RealRows(data[..], dims, rows);
    }

    /** Row i of `set`: n3 values from src[s..] to the row's padded start. */
    method CopyRow(src: seq<real>, i: nat, s: nat)
      requires Valid() && data != null && |src| == Volume(dims)
      requires i < Rows(dims) && s == i * dims.n2
      requires RealRows(data[..], dims, i) == src[..s]
      modifies data
      ensures s + dims.n2 <= |src|
      ensures RealRows(data[..], dims, i + 1) == src[..s + dims.n2]
    {
      var rows, n3, L := Rows(dims), dims.n2, LastDim(dims.n2);
      var d := RowStart(i, L, rows);
      assert s + n3 <= |src| by {
        var o := RowStart(i, n3, rows);
      }
      ghost var a1 := data[..];
      var j := 0;
      while j < n3
        invariant 0 <= j <= n3
        invariant data[..d] == a1[..d]
        invariant data[d..d + j] == src[s..s + j]
      {
        data[d + j] := src[s + j];
        assert data[d..d + j + 1] == data[d..d + j] + [src[s + j]];
        assert src[s..s + j + 1] == src[s..s + j] + [src[s + j]];
        j := j + 1;
      }
      assert data[..][..i * L] == a1[..i * L];
      RealRowsFrame(data[..], a1, dims, i);
      assert src[..s + n3] == src[..s] + src[s..s + n3];
    }

    /** `copy_data`: refuse an incompatible image, else copy the whole
        buffer, padding included. */
    method CopyData(im: Image) returns (err: Option<ImageError>)
      requires Valid() && im.Valid()
      modifies data
      ensures !Compatible(im) ==> err == Some(Incompatible) && (data != null ==> data[..] == old(data[..]))
      ensures Compatible(im) ==> err == None && data[..] == old(im.data[..])
    {
      if !Compatible(im) {
        return Some(Incompatible);
      }
      forall p | 0 <= p < data.Length {
        data[p] := im.data[p];
      }
      err := None;
    }

    /** `get_image`: the image as a C-order vector of n1·n2·n3 values. */
    method GetImage() returns (r: Result<seq<real>, ImageError>)
      requires Valid()
      ensures data == null ==> r == Failure(EmptyImage)
      ensures data != null ==> r == Success(Voxels())
    {
      if data == null {
        return Failure(EmptyImage);
      }
      var rows := Rows(dims);
      var out: seq<real> := [];
      var i := 0;
      while i < rows
        invariant 0 <= i <= rows
        invariant out == RealRows(data[..], dims, i)
      {
        out := AppendRow(i, out);
        i := i + 1;
      }
      r := Success(out);
    }

    /** Row i of `get_image`: its n3 real columns appended to the output. */
    method AppendRow(i: nat, out0: seq<real>) returns (out: seq<real>)
      requires Valid() && data != null && i < Rows(dims)
      ensures out == out0 + Row(data[..], dims, i)
    {
      var n3 := dims.n2;
      var d := RowStart(i, LastDim(n3), Rows(dims));
      ghost var a := data[..];
      out := out0;
      var j := 0;
      while j < n3
        invariant 0 <= j <= n3
        invariant out == out0 + a[d..d + j]
      {
        assert a[d..d + j + 1] == a[d..d + j] + [a[d + j]];
        out := out + [data[d + j]];
        j := j + 1;
      }
    }

    /** `operator()(i, j, k)`: the element at i·n2·last_dim + j·last_dim + k,
        which is voxel (i·n2 + j)·n3 + k of the image `set` stored. */
    function At(i: nat, j: nat, k: nat): (x: real)
      reads this, data
      requires Valid() && data != null
      requires i < dims.n0 && j < dims.n1 && k < dims.n2
      ensures (i * dims.n1 + j) * dims.n2 + k < Volume(dims)
      ensures x == Voxels()[(i * dims.n1 + j) * dims.n2 + k]
    {
      var r := i * dims.n1 + j;
      assert r < Rows(dims) by {
        MulAtLeast(dims.n0 - i, dims.n1);
        assert Rows(dims) == i * dims.n1 + (dims.n0 - i) * dims.n1;
      }
      var t := RowStart(r, dims.n2, Rows(dims)) + k;
      assert t == (i * dims.n1 + j) * dims.n2 + k;
      PadRowColumn(r, k, dims);
      assert Voxels()[t] == data[RowStart(r, LastDim(dims.n2), Rows(dims)) + k];
      data[RowStart(r, LastDim(dims.n2), Rows(dims)) + k]
    }

    /** `swap`: exchange buffers, dimensions, voxel sizes and plans; the
        settings stay with their images. */
    method Swap(other: Image)
      requires Valid() && other.Valid()
      modifies this, other
      ensures data == old(other.data) && other.data == old(data)
      ensures dims == old(other.dims) && other.dims == old(dims)
      ensures voxel == old(other.voxel) && other.voxel == old(voxel)
      ensures planForward == old(other.planForward) && other.planForward == old(planForward)
      ensures planInverse == old(other.planInverse) && other.planInverse == old(planInverse)
      ensures settings == old(settings) && other.settings == old(other.settings)
      ensures Valid() && other.Valid()
    {
      var d, n, v, f, b := data, dims, voxel, planForward, planInverse;
      data, dims, voxel, planForward, planInverse :=
        other.data, other.dims, other.voxel, other.planForward, other.planInverse;
      other.data, other.dims, other.voxel, other.planForward, other.planInverse := d, n, v, f, b;
    }

    /** `invdivide_image`: this = image/this voxel by voxel, 0 where this <= 0. */
    method InvDivideImage(image: Image) returns (err: Option<ImageError>)
      requires Valid() && image.Valid()
      modifies data
      ensures !Compatible(image) ==> err == Some(Incompatible) && (data != null ==> data[..] == old(data[..]))
      ensures Compatible(image) ==>
                err == None && data[..] == Combined(InvDivide, old(data[..]), old(image.data[..]), dims)
    {
      if !Compatible(image) {
        return Some(Incompatible);
      }
      Combine(InvDivide, image);
      err := None;
    }

    /** `prod_image`: this = image·this voxel by voxel. */
    method ProdImage(image: Image) returns (err: Option<ImageError>)
      requires Valid() && image.Valid()
      modifies data
      ensures !Compatible(image) ==> err == Some(Incompatible) && (data != null ==> data[..] == old(data[..]))
      ensures Compatible(image) ==>
                err == None && data[..] == Combined(Product, old(data[..]), old(image.data[..]), dims)
    {
      if !Compatible(image) {
        return Some(Incompatible);
      }
      Combine(Product, image);
      err := None;
    }

    /** The loop shared by the two voxel operations: rows, then the n3 real
        columns of each row. `image` may be this very image. */
    method Combine(op: VoxelOp, image: Image)
      requires Valid() && image.Valid() && Compatible(image)
      modifies data
      ensures data[..] == Combined(op, old(data[..]), old(image.data[..]), dims)
    {
      ghost var a0, b0 := data[..], image.data[..];
      ghost var c := Combined(op, a0, b0, dims);
      var rows, L := Rows(dims), LastDim(dims.n2);
      var i, d := 0, 0;
      while i < rows
        invariant 0 <= i <= rows && d == i * L
        invariant forall p :: 0 <= p < data.Length ==> data[p] == (if p < d then c[p] else a0[p])
        invariant image.data == data || image.data[..] == b0
      {
        CombineRow(op, image, i, d, a0, b0);
        i, d := i + 1, d + L;
      }
    }

    /** Row i of an in-place voxel operation; the padding after the n3 real
        columns is skipped. */
    method CombineRow(op: VoxelOp, image: Image, i: nat, d: nat, ghost a0: seq<real>, ghost b0: seq<real>)
      requires Valid() && image.Valid() && Compatible(image)
      requires i < Rows(dims) && d == i * LastDim(dims.n2)
      requires |a0| == data.Length && |b0| == data.Length
      requires image.data == data ==> a0 == b0
      requires image.data == data || image.data[..] == b0
      requires forall p :: 0 <= p < data.Length ==>
                 data[p] == (if p < d then Combined(op, a0, b0, dims)[p] else a0[p])
      modifies data
      ensures image.data == data || image.data[..] == b0
      ensures forall p :: 0 <= p < data.Length ==>
                data[p] == (if p < d + LastDim(dims.n2) then Combined(op, a0, b0, dims)[p] else a0[p])
    {
      ghost var c := Combined(op, a0, b0, dims);
      var n3, L := dims.n2, LastDim(dims.n2);
      var o := RowStart(i, L, Rows(dims));
      var j := 0;
      while j < n3
        invariant 0 <= j <= n3
        invariant forall p :: 0 <= p < data.Length ==> data[p] == (if p < d + j then c[p] else a0[p])
        invariant image.data == data || image.data[..] == b0
      {
        ModUnique(d + j, L, i, j);
        data[d + j] := Apply(op, data[d + j], image.data[d + j]);
        j := j + 1;
      }
      forall p | d + n3 <= p < d + L
        ensures c[p] == a0[p]
      {
        ModUnique(p, L, i, p - d);
      }
    }

    /** `get_stats`: minimum, maximum and sum of the image values, starting
        from the first buffer element. */
    method GetStats() returns (r: Result<Stats, ImageError>)
      requires Valid()
      ensures data == null ==> r == Failure(EmptyImage)
      ensures data != null ==> r.Success? && IsStats(r.value, Voxels())
    {
      if data == null {
        return Failure(EmptyImage);
      }
      var rows := Rows(dims);
      ghost var a := data[..];
      var cmin, cmax, csum := data[0], data[0], 0.0;
      ghost var pre: seq<real> := [];
      ghost var minAt, maxAt := -1, -1;
      var i := 0;
      while i < rows
        invariant 0 <= i <= rows
        invariant pre == RealRows(a, dims, i)
        invariant StatsSoFar(cmin, cmax, csum, minAt, maxAt, pre, a[0])
      {
        cmin, cmax, csum, minAt, maxAt, pre := StatsRow(i, cmin, cmax, csum, minAt, maxAt, pre, a[0]);
        i := i + 1;
      }
      FirstVoxel(a, dims);
      assert pre == Voxels();
      SoFarIsStats(cmin, cmax, csum, minAt, maxAt, pre);
      r := Success(Stats(cmin, cmax, csum));
    }

    /** The n3 real columns of row i folded into the running statistics. */
    method StatsRow(i: nat, cmin0: real, cmax0: real, csum0: real, ghost minAt0: int, ghost maxAt0: int,
                    ghost pre0: seq<real>, ghost first: real)
      returns (cmin: real, cmax: real, csum: real, ghost minAt: int, ghost maxAt: int, ghost pre: seq<real>)
      requires Valid() && data != null && i < Rows(dims)
      requires StatsSoFar(cmin0, cmax0, csum0, minAt0, maxAt0, pre0, first)
      ensures pre == pre0 + Row(data[..], dims, i)
      ensures StatsSoFar(cmin, cmax, csum, minAt, maxAt, pre, first)
    {
      var n3 := dims.n2;
      var d := RowStart(i, LastDim(n3), Rows(dims));
      ghost var a := data[..];
      cmin, cmax, csum, minAt, maxAt, pre := cmin0, cmax0, csum0, minAt0, maxAt0, pre0;
      var j := 0;
      while j < n3
        invariant 0 <= j <= n3
        invariant pre == pre0 + a[d..d + j]
        invariant StatsSoFar(cmin, cmax, csum, minAt, maxAt, pre, first)
      {
        var v := data[d + j];
        assert a[d..d + j + 1] == a[d..d + j] + [v];
        SumAppend(pre, [v]);
        SumSingle(v);
        if v < cmin {
          cmin, minAt := v, |pre|;
        }
        if v > cmax {
          cmax, maxAt := v, |pre|;
        }
        csum := csum + v;
        pre := pre + [v];
        j := j + 1;
      }
    }

    /** `nrm2`: the sum of squared differences over the image values. Only
        this image is checked; the other must cover the same layout. */
    method Nrm2(image: Image) returns (r: Result<real, ImageError>)
      requires Valid() && image.Valid()
      requires data != null ==> image.data != null && image.dims == dims
      ensures data == null ==> r == Failure(EmptyImage)
      ensures data != null ==> r == Success(SqDist(Voxels(), image.Voxels()))
    {
      if data == null {
        return Failure(EmptyImage);
      }
      var rows := Rows(dims);
      ghost var a, b := data[..], image.data[..];
      var nrm := 0.0;
      var i := 0;
      while i < rows
        invariant 0 <= i <= rows
        invariant nrm == SqDist(RealRows(a, dims, i), RealRows(b, dims, i))
      {
        SqDistConcat(RealRows(a, dims, i), RealRows(b, dims, i), Row(a, dims, i), Row(b, dims, i));
        nrm := AddRowSqDist(image, i, nrm);
        i := i + 1;
      }
      r := Success(nrm);
    }

    /** Row i of `nrm2` added to the running sum. */
    method AddRowSqDist(image: Image, i: nat, nrm0: real) returns (nrm: real)
      requires Valid() && image.Valid() && data != null && image.data != null && image.dims == dims
      requires i < Rows(dims)
      ensures nrm == nrm0 + SqDist(Row(data[..], dims, i), Row(image.data[..], dims, i))
    {
      var n3 := dims.n2;
      var d := RowStart(i, LastDim(n3), Rows(dims));
      ghost var a, b := data[..], image.data[..];
      nrm := nrm0;
      var j := 0;
      while j < n3
        invariant 0 <= j <= n3
        invariant nrm == nrm0 + SqDist(a[d..d + j], b[d..d + j])
      {
        var t := data[d + j] - image.data[d + j];
        assert a[d..d + j + 1] == a[d..d + j] + [data[d + j]];
        assert b[d..d + j + 1] == b[d..d + j] + [image.data[d + j]];
        SqDistAppend(a[d..d + j], b[d..d + j], data[d + j], image.data[d + j]);
        nrm := nrm + t * t;
        j := j + 1;
      }
    }
  }

  /** The constructor that copies user data: `set` on a new image, which
      throws for a vector of the wrong length. */
  method NewImage(s: ImageSettings?, src: seq<real>, n: Shape3, v: Real3) returns (r: Result<Image, ImageError>)
    requires Positive(n)
    ensures r.Failure? <==> |src| != 0 && |src| != Volume(n)
    ensures r.Failure? ==> r.error == InconsistentSize
    ensures r.Success? ==> fresh(r.value) && r.value.Valid() && r.value.data != null && r.value.dims == n
    ensures r.Success? && |src| != 0 ==> r.value.Voxels() == src
  {
    if |src| != 0 && |src| != Volume(n) {
      return Failure(InconsistentSize);
    }
    var im := new Image(s, n, v);
    var e := im.Set(src, n, v);
    r := Success(im);
  }

  /** Round trip: the vector `get_image` returns is the one the image was
      built from. */
  method SetGetRoundTrip(s: ImageSettings?, src: seq<real>, n: Shape3, v: Real3) returns (back: Result<seq<real>, ImageError>)
    requires Positive(n) && |src| == Volume(n)
    ensures back == Success(src)
  {
    var r := NewImage(s, src, n, v);
    back := r.value.GetImage();
  }
}
