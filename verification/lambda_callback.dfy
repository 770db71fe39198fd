/** The stopping callback of `deconvolve/python/tests/test_deconvolve.py`:
    it records every lambda it lets through in a module-level list and
    stops once lambda no longer exceeds any of the last three recorded
    values, or after iteration 100. The printing of the arguments is not
    modelled. */
module LambdaCallback {
  import opened DeconvolvePriv

  /** The iteration after which the callback always stops. */
  const LastIteration: nat := 100

  /** `s[-q]`: the q-th entry from the end. */
  function FromEnd(s: seq<real>, q: int): real
    requires 1 <= q <= |s|
  {
    s[|s| - q]
  }

  /** The stopping test on lambda: more than three values recorded and
      lambda at or below each of the last three. */
  predicate NotAboveLastThree(lambdas: seq<real>, lambda: real)
  {
    |lambdas| > 3 &&
    forall q :: 1 <= q <= 3 ==> lambda <= FromEnd(lambdas, q)
  }

  /** The callback's answer, as a truth value: 1 when true, 0 when false. */
  predicate TestContinues(lambdas: seq<real>, lambda: real, iter: nat)
  {
    iter <= LastIteration && !NotAboveLastThree(lambdas, lambda)
  }

  /** The module-level `lambdas` list together with the callback that
      appends to it. */
  class LambdaLog {
    var lambdas: seq<real>

    /** `lambdas = []` at import. */
    constructor()
      ensures lambdas == []
    {
      lambdas := [];
    }

    /** `callback(**kwargs)`: answers 0 or 1 and records lambda exactly when
        it answers 1. */
    method Call(a: CallbackArgs) returns (go: int)
      modifies this
      ensures go == (if TestContinues(old(lambdas), a.lambda, a.iter) then 1 else 0)
      ensures lambdas == if go == 1 then old(lambdas) + [a.lambda] else old(lambdas)
    {
      if a.iter > LastIteration {
        return 0;
      }
      var l := a.lambda;
      if |lambdas| > 3 {
        var stop := true;
        for i := 1 to 4
          invariant stop <==> forall q :: 1 <= q < i ==> l <= FromEnd(lambdas, q)
        {
          if l > FromEnd(lambdas, i) {
            stop := false;
          }
        }
        if stop {
          return 0;
        }
      }
      lambdas := lambdas + [l];
      go := 1;
    }
  }

  /** Every lambda the default callback would stop on (a strict decline
      below its three stored values) also stops this callback, once it has
      recorded more than three values whose newest three are those stored
      values. */
  lemma DefaultDeclineStopsTest(lambdas: seq<real>, lambda: real, iter: nat)
    requires |lambdas| > 3 && LambdaDeclined(true, lambdas[|lambdas| - 3..], lambda)
    ensures !TestContinues(lambdas, lambda, iter)
  {
    var last := lambdas[|lambdas| - 3..];
    forall q | 1 <= q <= 3
      ensures lambda <= FromEnd(lambdas, q)
    {
      assert FromEnd(lambdas, q) == last[3 - q];
    }
  }

  /** The converse fails on ties: four recorded values of 1 and a new lambda
      of 1 stop this callback, while the default callback, holding the same
      three newest values, goes on. */
  lemma TiesStopOnlyHere()
    ensures !TestContinues([1.0, 1.0, 1.0, 1.0], 1.0, 5)
    ensures DefaultContinues(true, [1.0, 1.0, 1.0], 1.0, 5, DefaultMaxIterations)
  {
    var h: seq<real> := [1.0, 1.0, 1.0];
    assert h[0] <= 1.0;
  }

  /** The smallest of three values. */
  function Min3(a: real, b: real, c: real): (m: real)
    ensures m <= a && m <= b && m <= c
    ensures m == a || m == b || m == c
  {
    if a <= b && a <= c then a else if b <= c then b else c
  }

  /** With more than three values recorded, the newest three of which the
      default callback also holds, and an iteration both caps allow, this
      callback stops where the default one goes on exactly when lambda ties
      the smallest of the last three values. */
  lemma TieIsTheOnlyDifference(lambdas: seq<real>, lambda: real, iter: nat)
    requires |lambdas| > 3 && iter < DefaultMaxIterations
    ensures var last := lambdas[|lambdas| - 3..];
            (!TestContinues(lambdas, lambda, iter) && DefaultContinues(true, last, lambda, iter, DefaultMaxIterations))
            <==> lambda == Min3(FromEnd(lambdas, 1), FromEnd(lambdas, 2), FromEnd(lambdas, 3))
  {
    var last := lambdas[|lambdas| - 3..];
    assert last == [FromEnd(lambdas, 3), FromEnd(lambdas, 2), FromEnd(lambdas, 1)];
    assert NotAboveLastThree(lambdas, lambda) <==>
           lambda <= FromEnd(lambdas, 1) && lambda <= FromEnd(lambdas, 2) && lambda <= FromEnd(lambdas, 3);
  }

  /** This callback needs four recorded values before lambda can stop it,
      where the default callback needs three: three values all above lambda
      stop the default callback but not this one. */
  lemma FourthValueNeeded()
    ensures TestContinues([2.0, 2.0, 2.0], 1.0, 5)
    ensures !DefaultContinues(true, [2.0, 2.0, 2.0], 1.0, 5, DefaultMaxIterations)
  {
  }

  /** The iteration limits differ by one: the default callback (with the
      default cap) stops at iteration 100, this callback at 101. */
  lemma CapIsOneLater(lambdas: seq<real>, lambda: real)
    requires |lambdas| <= 3
    ensures TestContinues(lambdas, lambda, 100) && !TestContinues(lambdas, lambda, 101)
    ensures !DefaultContinues(false, lambdas, lambda, 100, DefaultMaxIterations)
  {
  }
}
