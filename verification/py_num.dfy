/** Stock result wrappers: an optional value and a value-or-error. */
module Wrappers {
  datatype Option<T> = None | Some(value: T)

  datatype Result<T, E> = Success(value: T) | Failure(error: E)
}

/** The numeric conversions of Python and numpy that the model relies on.
    Values are mathematical reals; IEEE rounding is not modelled. */
module PyNum {

  /** `int(x)` on a float, and numpy's `astype(int)`: truncation toward zero. */
  function Trunc(x: real): (t: int)
    ensures x >= 0.0 ==> t as real <= x < t as real + 1.0
    ensures x < 0.0 ==> t as real - 1.0 < x <= t as real
  {
    if x >= 0.0 then x.Floor else -((-x).Floor)
  }

  /** `math.ceil` / `np.ceil(...).astype(int)`. */
  function Ceil(x: real): (c: int)
    ensures x <= c as real < x + 1.0
  {
    -((-x).Floor)
  }

  /** numpy's `round` (and Python 3's `round`): nearest integer, ties to even. */
  function RoundHalfEven(x: real): (r: int)
    ensures x - 0.5 <= r as real <= x + 0.5
    ensures (r as real - x == 0.5 || x - r as real == 0.5) ==> r % 2 == 0
  {
    var f := x.Floor;
    var frac := x - f as real;
    if frac < 0.5 then f
    else if frac > 0.5 then f + 1
    else if f % 2 == 0 then f
    else f + 1
  }

  /** The two properties above determine the rounded value uniquely. */
  lemma RoundHalfEvenUnique(x: real, r: int)
    requires x - 0.5 <= r as real <= x + 0.5
    requires (r as real - x == 0.5 || x - r as real == 0.5) ==> r % 2 == 0
    ensures r == RoundHalfEven(x)
  {
  }

  function Abs(x: real): (a: real)
    ensures a >= 0.0 && (a == x || a == -x)
  {
    if x < 0.0 then -x else x
  }

  function MaxInt(a: int, b: int): (m: int)
    ensures m >= a && m >= b && (m == a || m == b)
  {
    if a >= b then a else b
  }

  function MinInt(a: int, b: int): (m: int)
    ensures m <= a && m <= b && (m == a || m == b)
  {
    if a <= b then a else b
  }

  lemma MulAtLeast(d: int, n: int)
    requires d >= 1 && n >= 0
    ensures d * n >= n
  {
  }

  /** Euclidean division is unique: x = q·n + r with 0 <= r < n determines q and r. */
  lemma ModUnique(x: int, n: int, q: int, r: int)
    requires n > 0 && 0 <= r < n && x == q * n + r
    ensures x / n == q && x % n == r
  {
    var q0, r0 := x / n, x % n;
    var d := q - q0;
    assert d * n == r0 - r by {
      assert x == q0 * n + r0;
      assert d * n == q * n - q0 * n;
    }
    if d > 0 {
      MulAtLeast(d, n);
      assert false;
    } else if d < 0 {
      assert (-d) * n == -(d * n);
      MulAtLeast(-d, n);
      assert false;
    }
  }

  /** Sum of a sequence of reals, left to right. */
  function Sum(s: seq<real>): real
  {
    if |s| == 0 then 0.0 else Sum(s[..|s| - 1]) + s[|s| - 1]
  }

  lemma {:induction false} SumAppend(a: seq<real>, b: seq<real>)
    ensures Sum(a + b) == Sum(a) + Sum(b)
    decreases |b|
  {
    if |b| == 0 {
      assert a + b == a;
    } else {
      assert (a + b)[..|a + b| - 1] == a + b[..|b| - 1];
      SumAppend(a, b[..|b| - 1]);
    }
  }

  lemma SumSingle(x: real)
    ensures Sum([x]) == x
  {
    assert [x][..0] == [];
  }

  lemma {:induction false} SumNonNegative(s: seq<real>)
    requires forall i :: 0 <= i < |s| ==> s[i] >= 0.0
    ensures Sum(s) >= 0.0
    decreases |s|
  {
    if |s| > 0 {
      SumNonNegative(s[..|s| - 1]);
    }
  }

  /** A sum of non-negative terms is zero only when every term is zero. */
  lemma {:induction false} SumZeroAllZero(s: seq<real>)
    requires forall i :: 0 <= i < |s| ==> s[i] >= 0.0
    requires Sum(s) == 0.0
    ensures forall i :: 0 <= i < |s| ==> s[i] == 0.0
    decreases |s|
  {
    if |s| > 0 {
      SumNonNegative(s[..|s| - 1]);
      SumZeroAllZero(s[..|s| - 1]);
      forall i | 0 <= i < |s| ensures s[i] == 0.0 {
        if i < |s| - 1 {
          assert s[i] == s[..|s| - 1][i];
        }
      }
    }
  }

  /** Dividing every term by c divides the sum by c. */
  lemma {:induction false} SumScale(s: seq<real>, c: real)
    requires c != 0.0
    ensures Sum(seq(|s|, i requires 0 <= i < |s| => s[i] / c)) == Sum(s) / c
    decreases |s|
  {
    var t := seq(|s|, i requires 0 <= i < |s| => s[i] / c);
    if |s| > 0 {
      var s' := s[..|s| - 1];
      assert t[..|t| - 1] == seq(|s'|, i requires 0 <= i < |s'| => s'[i] / c);
      SumScale(s', c);
    }
  }

  /** A sum of n terms in [lo, hi] lies in [n·lo, n·hi]. */
  lemma {:induction false} SumBounds(s: seq<real>, lo: real, hi: real)
    requires forall i :: 0 <= i < |s| ==> lo <= s[i] <= hi
    ensures |s| as real * lo <= Sum(s) <= |s| as real * hi
    decreases |s|
  {
    if |s| > 0 {
      var n := |s| - 1;
      SumBounds(s[..n], lo, hi);
      assert Sum(s) == Sum(s[..n]) + s[n];
      assert |s| as real * hi == n as real * hi + hi;
      assert |s| as real * lo == n as real * lo + lo;
    }
  }

  lemma {:induction false} SumZeroOfZeros(s: seq<real>)
    requires forall i :: 0 <= i < |s| ==> s[i] == 0.0
    ensures Sum(s) == 0.0
    decreases |s|
  {
    if |s| > 0 {
      SumZeroOfZeros(s[..|s| - 1]);
    }
  }

  /** The square of a real. */
  function Sq(x: real): real { x * x }

  /** Multiplying by a non-zero number and dividing by it again is the identity. */
  lemma DivBack(a: real, x: real)
    requires x != 0.0
    ensures (a * x) / x == a
  {
  }

  /** Only zero squares to zero. */
  lemma SqZero(x: real)
    requires Sq(x) == 0.0
    ensures x == 0.0
  {
    if x != 0.0 {
      DivBack(x, x);
    }
  }
}
