/** `expand_to_shape` of the Python test modules
    (`deconvolve/python/tests/test_convolve.py` and, identically,
    `test_deconvolve.py`): place a 3-D array, centred, into an array of
    another shape filled with a background value, cropping axes that
    shrink. The dtype cast is not modelled (values are reals). */
module ExpandShape {
  import opened Wrappers
  import opened PySlice
  import opened NdArray

  /** Why `expand_to_shape` raises. */
  datatype ExpandError =
    | EmptyMinimum    // `data.min()` of an empty array (ValueError)
    | ShapeMismatch   // the slice assignment cannot broadcast (ValueError, printed and re-raised)

  /** The two slices of one axis: `slice(a, b)` into the result and
      `slice(c, d)` of the data. */
  datatype Window = Window(a: int, b: int, c: int, d: int)

  /** The window of one axis in closed form: start from
      a = (s1-s2+1)//2, b = (s1+s2+1)//2, c = 0, d = s2 and, while a is
      negative, move all four one step inwards. */
  function WindowOf(s1: nat, s2: nat): Window
  {
    var a0 := (s1 - s2 + 1) / 2;
    var b0 := (s1 + s2 + 1) / 2;
    var t := if a0 < 0 then -a0 else 0;
    Window(a0 + t, b0 - t, t, s2 - t)
  }

  /** The `while a < 0` loop of one axis. */
  method AxisWindow(s1: nat, s2: nat) returns (w: Window)
    ensures w == WindowOf(s1, s2)
  {
    var a, b := (s1 - s2 + 1) / 2, (s1 + s2 + 1) / 2;
    var c, d := 0, s2;
    ghost var a0, b0 := a, b;
    while a < 0
      invariant a0 <= a <= (if a0 < 0 then 0 else a0)
      invariant c == a - a0 && b == b0 - c && d == s2 - c
      decreases -a
    {
      a := a + 1;
      b := b - 1;
      c := c + 1;
      d := d - 1;
    }
    w := Window(a, b, c, d);
  }

  /** The slice of the result on one axis. */
  function Lhs(w: Window): Range { Range(Some(w.a), Some(w.b)) }

  /** The slice of the data on one axis. */
  function Rhs(w: Window): Range { Range(Some(w.c), Some(w.d)) }

  /** numpy's broadcasting rule for one axis of the assignment: equal
      lengths, or a data side of length 1. */
  predicate Broadcasts(w: Window, s1: nat, s2: nat)
  {
    Len(Lhs(w), s1) == Len(Rhs(w), s2) || Len(Rhs(w), s2) == 1
  }

  /** On a growing (or unchanged) axis the whole data axis is copied,
      starting at (s1-s2+1)//2. */
  lemma GrowingAxisCopiesAll(s1: nat, s2: nat)
    requires s1 >= s2
    ensures var w := WindowOf(s1, s2);
            Lo(Lhs(w), s1) == (s1 - s2 + 1) / 2 && Len(Lhs(w), s1) == s2 &&
            Lo(Rhs(w), s2) == 0 && Len(Rhs(w), s2) == s2
  {
    var w := WindowOf(s1, s2);
    assert (s1 + s2 + 1) / 2 == (s1 - s2 + 1) / 2 + s2;
    assert w.b <= s1;
  }

  /** On an axis shrunk by an even amount the data is centre-cropped to s1
      entries. */
  lemma EvenShrinkCentreCrops(s1: nat, s2: nat)
    requires s2 > s1 && (s2 - s1) % 2 == 0
    ensures var w := WindowOf(s1, s2);
            Lo(Lhs(w), s1) == 0 && Len(Lhs(w), s1) == s1 &&
            Lo(Rhs(w), s2) == (s2 - s1) / 2 && Len(Rhs(w), s2) == s1
  {
    var u := (s2 - s1) / 2;
    assert s1 - s2 + 1 == -2 * u + 1;
    assert (s1 - s2 + 1) / 2 == -u;
    assert s1 + s2 + 1 == 2 * (s1 + u) + 1;
    assert (s1 + s2 + 1) / 2 == s1 + u;
  }

  /** On an axis shrunk by an odd amount the two slices differ by one in
      length, so the assignment cannot broadcast unless the target axis is
      empty. */
  lemma OddShrinkMismatches(s1: nat, s2: nat)
    requires s2 > s1 && (s2 - s1) % 2 == 1
    ensures var w := WindowOf(s1, s2);
            Len(Lhs(w), s1) == s1 && Len(Rhs(w), s2) == s1 + 1
    ensures s1 > 0 ==> !Broadcasts(WindowOf(s1, s2), s1, s2)
  {
    var u := (s2 - s1) / 2;
    assert s1 - s2 + 1 == -2 * u;
    assert (s1 - s2 + 1) / 2 == -u;
    assert s1 + s2 + 1 == 2 * (s1 + u + 1);
    assert (s1 + s2 + 1) / 2 == s1 + u + 1;
  }

  /** Result index i on one axis lies inside the assigned slice. */
  predicate Inside(w: Window, s1: nat, i: nat)
  {
    Lo(Lhs(w), s1) <= i < Lo(Lhs(w), s1) + Len(Lhs(w), s1)
  }

  /** A broadcasting axis never selects more result entries than data
      entries. */
  lemma BroadcastFits(w: Window, s1: nat, s2: nat)
    requires Broadcasts(w, s1, s2) && w == WindowOf(s1, s2)
    ensures Len(Lhs(w), s1) <= Len(Rhs(w), s2)
  {
    if s1 >= s2 {
      GrowingAxisCopiesAll(s1, s2);
    } else if (s2 - s1) % 2 == 0 {
      EvenShrinkCentreCrops(s1, s2);
    } else {
      OddShrinkMismatches(s1, s2);
    }
  }

  /** The data index copied to result index i on one axis, or None when i
      keeps the background. */
  function AxisSource(w: Window, s1: nat, s2: nat, i: nat): (o: Option<nat>)
    requires Broadcasts(w, s1, s2) && w == WindowOf(s1, s2)
    ensures o.Some? <==> Inside(w, s1, i)
    ensures o.Some? ==> o.value < s2 && o.value == Lo(Rhs(w), s2) + (i - Lo(Lhs(w), s1))
  {
    BroadcastFits(w, s1, s2);
    if Inside(w, s1, i) then Some(Lo(Rhs(w), s2) + (i - Lo(Lhs(w), s1))) else None
  }

  /** The three windows in axis order. */
  datatype Windows = Windows(w0: Window, w1: Window, w2: Window)

  function WindowsOf(shape: Shape3, ds: Shape3): Windows
  {
    Windows(WindowOf(shape.n0, ds.n0), WindowOf(shape.n1, ds.n1), WindowOf(shape.n2, ds.n2))
  }

  predicate AllBroadcast(ws: Windows, shape: Shape3, ds: Shape3)
  {
    Broadcasts(ws.w0, shape.n0, ds.n0) && Broadcasts(ws.w1, shape.n1, ds.n1) && Broadcasts(ws.w2, shape.n2, ds.n2)
  }

  /** One voxel of the expanded array: the matching data voxel inside the
      window on all three axes, the background elsewhere. */
  function Voxel(data: Vol3, ds: Shape3, shape: Shape3, bg: real, i: nat, j: nat, k: nat): real
    requires HasShape(data, ds) && AllBroadcast(WindowsOf(shape, ds), shape, ds)
  {
    var ws := WindowsOf(shape, ds);
    var oi := AxisSource(ws.w0, shape.n0, ds.n0, i);
    var oj := AxisSource(ws.w1, shape.n1, ds.n1, j);
    var ok := AxisSource(ws.w2, shape.n2, ds.n2, k);
    if oi.Some? && oj.Some? && ok.Some? then data[oi.value][oj.value][ok.value] else bg
  }

  /** `expanded_data[slices] = data[rhs_slices]` on an array filled with
      `bg`. */
  function Fill(data: Vol3, ds: Shape3, shape: Shape3, bg: real): (e: Vol3)
    requires HasShape(data, ds) && AllBroadcast(WindowsOf(shape, ds), shape, ds)
    ensures HasShape(e, shape)
    ensures forall i, j, k :: 0 <= i < shape.n0 && 0 <= j < shape.n1 && 0 <= k < shape.n2 ==>
      e[i][j][k] == Voxel(data, ds, shape, bg, i, j, k)
  {
    seq(shape.n0, i requires 0 <= i =>
      seq(shape.n1, j requires 0 <= j =>
        seq(shape.n2, k requires 0 <= k => Voxel(data, ds, shape, bg, i, j, k))))
  }

  /** The smallest entry of a non-empty sequence. */
  function SeqMin(f: seq<real>): (m: real)
    requires |f| > 0
    ensures forall i :: 0 <= i < |f| ==> m <= f[i]
    ensures exists i :: 0 <= i < |f| && f[i] == m
  {
    if |f| == 1 then f[0]
    else
      var r := SeqMin(f[1..]);
      assert forall i :: 1 <= i < |f| ==> f[i] == f[1..][i - 1];
      if f[0] <= r then f[0] else r
  }

  /** `expand_to_shape(data, shape, background=background)`. */
  function Expanded(data: Vol3, ds: Shape3, shape: Shape3, background: Option<real>): Result<Vol3, ExpandError>
    requires HasShape(data, ds)
  {
    if shape == ds then Success(data)
    else if background.None? && Volume(ds) == 0 then Failure(EmptyMinimum)
    else
      var bg := if background.Some? then background.value else SeqMin(Ravel(data, ds));
      var ws := WindowsOf(shape, ds);
      if !AllBroadcast(ws, shape, ds) then Failure(ShapeMismatch)
      else Success(Fill(data, ds, shape, bg))
  }

  /** `expand_to_shape`: the per-axis loops, then the fill. */
  method ExpandToShape(data: Vol3, ds: Shape3, shape: Shape3, background: Option<real>) returns (r: Result<Vol3, ExpandError>)
    requires HasShape(data, ds)
    ensures r == Expanded(data, ds, shape, background)
  {
    if shape == ds {
      return Success(data);
    }
    var bg: real;
    if background.None? {
      if Volume(ds) == 0 {
        return Failure(EmptyMinimum);
      }
      bg := SeqMin(Ravel(data, ds));
    } else {
      bg := background.value;
    }
    var w0 := AxisWindow(shape.n0, ds.n0);
    var w1 := AxisWindow(shape.n1, ds.n1);
    var w2 := AxisWindow(shape.n2, ds.n2);
    var ws := Windows(w0, w1, w2);
    if !AllBroadcast(ws, shape, ds) {
      return Failure(ShapeMismatch);
    }
    r := Success(Fill(data, ds, shape, bg));
  }

  /** Equal shapes return the data itself; a successful result has the
      target shape, and every voxel outside the copied window holds the
      background (by default the data minimum). */
  lemma ExpandedShape(data: Vol3, ds: Shape3, shape: Shape3, background: Option<real>, i: nat, j: nat, k: nat)
    requires HasShape(data, ds)
    ensures shape == ds ==> Expanded(data, ds, shape, background) == Success(data)
    ensures Expanded(data, ds, shape, background).Success? ==> HasShape(Expanded(data, ds, shape, background).value, shape)
    ensures shape != ds && Expanded(data, ds, shape, background).Success? &&
            i < shape.n0 && j < shape.n1 && k < shape.n2 ==>
              var ws := WindowsOf(shape, ds);
              var bg := if background.Some? then background.value else SeqMin(Ravel(data, ds));
              !(Inside(ws.w0, shape.n0, i) && Inside(ws.w1, shape.n1, j) && Inside(ws.w2, shape.n2, k)) ==>
                Expanded(data, ds, shape, background).value[i][j][k] == bg
  {
  }

  /** Growing every axis embeds the whole data, offset by (s1-s2+1)//2 on
      each axis, and never fails when a background is given. */
  lemma GrowingEmbedsData(data: Vol3, ds: Shape3, shape: Shape3, bg: real, i: nat, j: nat, k: nat)
    requires HasShape(data, ds) && shape.n0 >= ds.n0 && shape.n1 >= ds.n1 && shape.n2 >= ds.n2
    requires i < ds.n0 && j < ds.n1 && k < ds.n2 && shape != ds
    ensures Expanded(data, ds, shape, Some(bg)).Success?
    ensures var o := Int3((shape.n0 - ds.n0 + 1) / 2, (shape.n1 - ds.n1 + 1) / 2, (shape.n2 - ds.n2 + 1) / 2);
            Expanded(data, ds, shape, Some(bg)).value[o.z + i][o.y + j][o.x + k] == data[i][j][k]
  {
    GrowingAxisCopiesAll(shape.n0, ds.n0);
    GrowingAxisCopiesAll(shape.n1, ds.n1);
    GrowingAxisCopiesAll(shape.n2, ds.n2);
  }

  /** An axis shrunk by an odd amount (to a non-empty extent) makes the
      call raise. */
  lemma OddShrinkRaises(data: Vol3, ds: Shape3, shape: Shape3, bg: real)
    requires HasShape(data, ds) && ds.n0 > shape.n0 > 0 && (ds.n0 - shape.n0) % 2 == 1
    ensures Expanded(data, ds, shape, Some(bg)) == Failure(ShapeMismatch)
  {
    OddShrinkMismatches(shape.n0, ds.n0);
  }
}
