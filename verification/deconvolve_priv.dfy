/** The deconvolution engine of IOCBIO Deconvolve
    (`deconvolve/cpp/src/deconvolve_priv.hpp`, `deconvolve_priv.cpp`): the
    stored PSF, image settings and parameters, the default callback with its
    stack of recent lambda values, convolution, and the regularised
    Richardson-Lucy iterations. The convolutions with the OTF (FFTs) and
    the floating-point voxel loops (the divergence of the unit gradient, the
    least-squares lambda, the regularised product and the SNR estimate) are
    parameters; the iterations run on image values. */
module DeconvolvePriv {
  import opened Wrappers
  import opened PyNum
  import opened NdArray
  import opened FftwSettings
  import opened Images
  import opened PsfOtf

  /** `const_lambda_stack_size`: how many recent lambdas the default
      callback compares against. */
  const LambdaStackSize: nat := 3

  /** `const_max_iterations`: the default iteration cap. */
  const DefaultMaxIterations: nat := 100

  /** The stored SNR when none is given: negative means "estimate it". */
  const UnsetSnr: real := -1.0

  /** The arguments of every callback call. */
  datatype CallbackArgs = CallbackArgs(
    iter: nat, min: real, max: real, sum: real,
    nrm2Prev: real, nrm2PrevPrev: real,
    lambda: real, lambdaFactor: real, snr: real)

  /** A user callback: a non-zero answer continues the iterations. */
  type Callback = CallbackArgs -> int

  /** The image operations left as parameters, on image values: the FFT
      convolutions and the floating-point voxel loops of `image.cpp`. */
  datatype Ops = Ops(
    convolve: (seq<real>, seq<real>) -> seq<real>,                      // image.convolve(otf)
    convolveConj: (seq<real>, seq<real>) -> seq<real>,                  // image.convolve_conj(otf)
    divUnitGrad: seq<real> -> seq<real>,                                // div.div_unit_grad(o0)
    lambdaLsq: (seq<real>, seq<real>) -> real,                          // Image::lambda_lsq(oC, div)
    prodRegularized: (seq<real>, seq<real>, real, seq<real>) -> seq<real>, // oC.prod_regularized(o0, lambda, div)
    snr: seq<real> -> real)                                             // oC.snr(1)
  {
    /** Every image operation maps an image to one of the same size. */
    ghost predicate Ok()
    {
      (forall a, b :: |convolve(a, b)| == |a|) &&
      (forall a, b :: |convolveConj(a, b)| == |a|) &&
      (forall a :: |divUnitGrad(a)| == |a|) &&
      (forall a, b, x, d :: |prodRegularized(a, b, x, d)| == |a|)
    }
  }

  /** Why `convolve` or `deconvolve` gives no image. */
  datatype DeconvError =
    | NoPsf                     // no PSF has been set
    | BadImage(image: ImageError)
    | BadPsf(psf: PsfError)
    | NegativeFirstLambda       // lambda < 0 in the first iteration
    | NonFiniteFactor           // 50 / snr / lambda divides by zero
    | OutOfFuel                 // the callback kept asking for more iterations

  // --------------------------------------------------- the default callback

  /** `callback_default`'s stopping test: with regularisation on and a full
      stack, every stored lambda is strictly above the current one. */
  predicate LambdaDeclined(regularize: bool, history: seq<real>, lambda: real)
  {
    regularize && |history| >= LambdaStackSize &&
    forall j :: 0 <= j < |history| ==> history[j] > lambda
  }

  /** `callback_default`'s answer: go on unless lambda has declined or the
      iteration cap is reached. */
  predicate DefaultContinues(regularize: bool, history: seq<real>, lambda: real, iter: nat, maxIterations: nat)
  {
    !LambdaDeclined(regularize, history, lambda) && iter < maxIterations
  }

  /** The stack after `callback_default` stores lambda: the new value last,
      the oldest dropped beyond the stack size. */
  function Pushed(history: seq<real>, lambda: real): (h: seq<real>)
    ensures |history| < LambdaStackSize ==> |h| == |history| + 1
    ensures |history| >= LambdaStackSize ==> |h| == |history|
  {
    var h := history + [lambda];
    if |h| > LambdaStackSize then h[1..] else h
  }

  /** The pushed stack ends with the new lambda and keeps the newest of the
      old values in their order. */
  lemma PushedKeepsNewest(history: seq<real>, lambda: real)
    ensures var h := Pushed(history, lambda);
            h[|h| - 1] == lambda && h == (history + [lambda])[|history| + 1 - |h|..]
  {
  }

  /** With fewer than three stored lambdas only the cap can stop the default
      callback; with regularisation off likewise. */
  lemma OnlyCapStopsEarly(regularize: bool, history: seq<real>, lambda: real, iter: nat, maxIterations: nat)
    requires |history| < LambdaStackSize || !regularize
    ensures DefaultContinues(regularize, history, lambda, iter, maxIterations) <==> iter < maxIterations
  {
  }

  /** A full stack whose entries all exceed lambda stops the iterations; a
      single entry at or below lambda keeps them going (below the cap). */
  lemma DeclineIsStrict(history: seq<real>, lambda: real, iter: nat, maxIterations: nat, j: nat)
    requires |history| == LambdaStackSize && j < |history| && history[j] <= lambda && iter < maxIterations
    ensures DefaultContinues(true, history, lambda, iter, maxIterations)
    ensures !DefaultContinues(true, history[j := lambda + 1.0], lambda, iter, maxIterations) <==>
              forall i :: 0 <= i < |history| && i != j ==> history[i] > lambda
  {
    var raised := history[j := lambda + 1.0];
    if forall i :: 0 <= i < |history| && i != j ==> history[i] > lambda {
      assert forall k :: 0 <= k < |raised| ==> raised[k] > lambda;
    } else {
      var i :| 0 <= i < |history| && i != j && history[i] <= lambda;
      assert raised[i] <= lambda;
    }
  }

  // ------------------------------------------------------- one iteration

  /** The iteration variables: the current and previous estimates, the one
      before (`om1`, unset before the first iteration), the one before that
      (whose distance is the before-previous norm), lambda and its factor.
      The statistics and norms the callback receives are functions of these
      estimates (see `Args`). */
  datatype IterState = IterState(
    oC: seq<real>, o0: seq<real>, om1: Option<seq<real>>, om2: Option<seq<real>>,
    lambda: real, lambdaFactor: real)

  /** Everything fixed for one call of `deconvolve`: the operations, the
      measured image, the OTF values, the parameters, and the user's
      callback as a function of the loop variables (see `UserAnswer`). */
  datatype Setup = Setup(
    ops: Ops, image: seq<real>, otf: seq<real>, regularize: bool, snr: real,
    user: Option<Loop -> bool>, maxIterations: nat)
  {
    ghost predicate Ok() { ops.Ok() && |image| > 0 }
  }

  /** The images of the state have the size of the measured image, and the
      older estimates are set once enough iterations have run. */
  predicate Fits(c: Setup, iter: nat, st: IterState)
  {
    |st.oC| == |c.image| && |st.o0| == |c.image| &&
    (st.om1.Some? ==> |st.om1.value| == |c.image|) &&
    (st.om2.Some? ==> |st.om2.value| == |c.image|) &&
    (iter >= 1 ==> st.om1.Some?) && (iter >= 2 ==> st.om2.Some?)
  }

  /** A voxel operation applied to two images, value by value. */
  function Voxelwise(op: VoxelOp, a: seq<real>, b: seq<real>): (r: seq<real>)
    requires |a| == |b|
    ensures |r| == |a|
  {
    seq(|a|, i requires 0 <= i < |a| => Apply(op, a[i], b[i]))
  }

  /** `invdivide_image` and `prod_image` on an `Image` compute `Voxelwise`
      on the image values. */
  lemma VoxelwiseIsCombined(op: VoxelOp, a: seq<real>, b: seq<real>, n: Shape3)
    requires Positive(n) && |a| == DataSize(n) && |b| == DataSize(n)
    ensures RealPart(Combined(op, a, b, n), n) == Voxelwise(op, RealPart(a, n), RealPart(b, n))
  {
    CombinedVoxelwise(op, a, b, n);
  }

  /** The SNR the iterations use: the stored one when not negative,
      otherwise the estimate from the measured image. */
  function EffectiveSnr(stored: real, ops: Ops, image: seq<real>): real
  {
    if stored < 0.0 then ops.snr(image) else stored
  }

  /** The end of an iteration once the new estimate `e` is known: the
      rotation om1 := o0, o0 := oC. */
  function Finish(e: seq<real>, st: IterState, lambda: real, factor: real): IterState
  {
    IterState(e, e, Some(st.o0), st.om1, lambda, factor)
  }

  /** The first half of an iteration: convolve the estimate with the OTF,
      divide the measured image by it, convolve with the conjugate OTF. */
  function Correction(c: Setup, st: IterState): (c3: seq<real>)
    requires c.Ok() && |st.oC| == |c.image|
    ensures |c3| == |c.image|
  {
    c.ops.convolveConj(Voxelwise(InvDivide, c.ops.convolve(st.oC, c.otf), c.image), c.otf)
  }

  /** Lambda from the least-squares estimate against the unit-gradient
      divergence of the previous estimate. */
  function LeastSquaresLambda(c: Setup, st: IterState): real
    requires c.Ok() && |st.oC| == |c.image| && |st.o0| == |c.image|
  {
    c.ops.lambdaLsq(Correction(c, st), c.ops.divUnitGrad(st.o0))
  }

  /** The body of the iteration loop: after the correction either multiply
      by the previous estimate or apply the regularised product with lambda
      from the least-squares estimate. */
  function Iteration(c: Setup, iter: nat, st: IterState): (r: Result<IterState, DeconvError>)
    requires c.Ok() && Fits(c, iter, st)
    ensures r.Success? ==> Fits(c, iter + 1, r.value)
    ensures r.Success? ==> r.value.o0 == r.value.oC && r.value.om1 == Some(st.o0) && r.value.om2 == st.om1
    ensures !c.regularize ==> r.Success? && r.value.lambda == st.lambda && r.value.lambdaFactor == st.lambdaFactor
  {
    var c3 := Correction(c, st);
    if !c.regularize then
      Success(Finish(Voxelwise(Product, c3, st.o0), st, st.lambda, st.lambdaFactor))
    else
      var lambda := LeastSquaresLambda(c, st);
      if lambda < 0.0 && iter == 0 then Failure(NegativeFirstLambda)
      else if iter == 0 && (c.snr == 0.0 || lambda == 0.0) then Failure(NonFiniteFactor)
      else
        var factor := if iter == 0 then 50.0 / c.snr / lambda else st.lambdaFactor;
        var scaled := (if lambda < 0.0 then 0.0 else lambda) * factor;
        Success(Finish(c.ops.prodRegularized(c3, st.o0, scaled, c.ops.divUnitGrad(st.o0)), st, scaled, factor))
  }

  /** A negative first lambda aborts the deconvolution. */
  lemma FirstLambdaMustBeNonNegative(c: Setup, st: IterState)
    requires c.Ok() && Fits(c, 0, st) && c.regularize
    ensures LeastSquaresLambda(c, st) < 0.0 <==>
            Iteration(c, 0, st) == Failure(NegativeFirstLambda)
  {
  }

  /** After the first iteration a negative lambda is clamped to zero, the
      factor fixed in the first iteration is kept, and the iteration goes
      on. */
  lemma LaterLambdaClamped(c: Setup, iter: nat, st: IterState)
    requires c.Ok() && Fits(c, iter, st) && c.regularize && iter > 0
    ensures Iteration(c, iter, st).Success?
    ensures Iteration(c, iter, st).value.lambdaFactor == st.lambdaFactor
    ensures Iteration(c, iter, st).value.lambda >= 0.0 || st.lambdaFactor < 0.0
    ensures LeastSquaresLambda(c, st) < 0.0 ==> Iteration(c, iter, st).value.lambda == 0.0
  {
    var lambda := LeastSquaresLambda(c, st);
    if lambda >= 0.0 && st.lambdaFactor >= 0.0 {
      MulNonNegative(lambda, st.lambdaFactor);
    }
  }

  /** The first iteration fixes the factor so that the regularised lambda
      of that iteration is 50/snr. */
  lemma FirstScaledLambda(c: Setup, st: IterState)
    requires c.Ok() && Fits(c, 0, st) && c.regularize
    requires Iteration(c, 0, st).Success?
    ensures Iteration(c, 0, st).value.lambda == 50.0 / c.snr
  {
    var lambda := LeastSquaresLambda(c, st);
    var factor := 50.0 / c.snr / lambda;
    assert factor * lambda == 50.0 / c.snr;
  }

  // ------------------------------------------------------------ the loop

  /** The loop variables: the iteration number, the iteration state and the
      default callback's lambda stack. */
  datatype Loop = Loop(iter: nat, st: IterState, history: seq<real>)

  /** Where the loop ends: its last variables, and the error if it did not
      end by the callback's answer. */
  datatype Final = Final(last: Loop, error: Option<DeconvError>)

  /** The callback arguments at the head of an iteration: before the first
      iteration statistics and norms are 0; afterwards the statistics of the
      current estimate and its `nrm2` to the previous one; the norm to the
      estimate two steps back is only computed from the third iteration
      (index 2) on, so it is 0 up to the call with iteration number 2. */
  function Args(snr: real, l: Loop): CallbackArgs
  {
    var st := l.st;
    var s := if l.iter == 0 || |st.oC| == 0 then Stats(0.0, 0.0, 0.0) else StatsOf(st.oC);
    var prev := Distance(st.oC, if l.iter == 0 then None else st.om1);
    var prevPrev := Distance(st.oC, if l.iter < 3 then None else st.om2);
    CallbackArgs(l.iter, s.min, s.max, s.sum, prev, prevPrev, st.lambda, st.lambdaFactor, snr)
  }

  /** `nrm2` to an estimate when it is set, 0 otherwise. */
  function Distance(u: seq<real>, w: Option<seq<real>>): real
  {
    if w.Some? && |w.value| == |u| then SqDist(u, w.value) else 0.0
  }

  /** A user callback as a function of the loop variables: asked with the
      arguments of `Args`, non-zero continues. */
  function UserAnswer(callback: Option<Callback>, snr: real): (u: Option<Loop -> bool>)
    ensures u.Some? <==> callback.Some?
  {
    match callback
    case None => None
    case Some(cb) => Some((l: Loop) => cb(Args(snr, l)) != 0)
  }

  /** What the callback receives: the iteration number, lambda, its factor
      and the SNR as they stand; from the first iteration on the statistics
      of the current estimate and its squared distance to the previous one,
      zero exactly when the estimate did not change; the distance to the
      estimate two steps back only from iteration number 3 on. */
  lemma ArgsMeaning(c: Setup, l: Loop)
    requires c.Ok() && Fits(c, l.iter, l.st)
    ensures var a := Args(c.snr, l);
            a.iter == l.iter && a.lambda == l.st.lambda && a.lambdaFactor == l.st.lambdaFactor && a.snr == c.snr &&
            (l.iter == 0 ==> a.min == 0.0 && a.max == 0.0 && a.sum == 0.0 && a.nrm2Prev == 0.0) &&
            (l.iter >= 1 ==> IsStats(Stats(a.min, a.max, a.sum), l.st.oC)) &&
            (l.iter >= 1 ==> a.nrm2Prev >= 0.0 && (a.nrm2Prev == 0.0 <==> l.st.oC == l.st.om1.value)) &&
            (l.iter < 3 ==> a.nrm2PrevPrev == 0.0) &&
            (l.iter >= 3 ==> a.nrm2PrevPrev >= 0.0 && (a.nrm2PrevPrev == 0.0 <==> l.st.oC == l.st.om2.value))
  {
    if l.iter >= 1 {
      SqDistZeroIff(l.st.oC, l.st.om1.value);
    }
    if l.iter >= 3 {
      SqDistZeroIff(l.st.oC, l.st.om2.value);
    }
  }

  /** The loop condition: the user's callback when set, otherwise the
      default one. */
  predicate Continues(c: Setup, l: Loop)
    requires c.Ok() && Fits(c, l.iter, l.st)
  {
    match c.user
    case Some(answer) => answer(l)
    case None => DefaultContinues(c.regularize, l.history, l.st.lambda, l.iter, c.maxIterations)
  }

  /** The lambda stack after the loop condition: only the default callback
      pushes. */
  function AfterCall(c: Setup, l: Loop): seq<real>
  {
    if c.user.Some? then l.history else Pushed(l.history, l.st.lambda)
  }

  /** The variables before the first iteration: the current estimate is the
      convolved image, the previous one the image itself, lambda 0, factor
      -1, statistics and norms 0, an empty stack. */
  function Start(c: Setup): (l: Loop)
    requires c.Ok()
    ensures Fits(c, l.iter, l.st)
  {
    Loop(0, IterState(c.ops.convolve(c.image, c.otf), c.image, None, None, 0.0, -1.0), [])
  }

  /** The `for` loop of `deconvolve`, with at most `fuel` iterations. */
  function Run(c: Setup, l: Loop, fuel: nat): (f: Final)
    requires c.Ok() && Fits(c, l.iter, l.st)
    decreases fuel
  {
    var h := AfterCall(c, l);
    if !Continues(c, l) then Final(l.(history := h), None)
    else if fuel == 0 then Final(l.(history := h), Some(OutOfFuel))
    else
      match Iteration(c, l.iter, l.st)
      case Failure(e) => Final(l.(history := h), Some(e))
      case Success(st) => Run(c, Loop(l.iter + 1, st, h), fuel - 1)
  }

  /** One round of the loop: when the callback goes on and the iteration
      succeeds, the run continues from the next variables. */
  lemma RunStep(c: Setup, l: Loop, fuel: nat)
    requires c.Ok() && Fits(c, l.iter, l.st) && Continues(c, l) && fuel > 0
    requires Iteration(c, l.iter, l.st).Success?
    ensures Run(c, l, fuel) == Run(c, Loop(l.iter + 1, Iteration(c, l.iter, l.st).value, AfterCall(c, l)), fuel - 1)
  {
  }

  /** What `deconvolve` hands back: the last estimate, or the error. */
  function Outcome(f: Final): Result<seq<real>, DeconvError>
  {
    if f.error.Some? then Failure(f.error.value) else Success(f.last.st.oC)
  }

  /** The default callback never lets the loop pass the iteration cap. */
  lemma {:induction false} DefaultStopsAtCap(c: Setup, l: Loop, fuel: nat)
    requires c.Ok() && Fits(c, l.iter, l.st) && c.user.None? && l.iter <= c.maxIterations
    ensures Run(c, l, fuel).last.iter <= c.maxIterations
    decreases fuel
  {
    if Continues(c, l) && fuel > 0 {
      var it := Iteration(c, l.iter, l.st);
      if it.Success? {
        var next := Loop(l.iter + 1, it.value, AfterCall(c, l));
        assert Run(c, l, fuel) == Run(c, next, fuel - 1);
        DefaultStopsAtCap(c, next, fuel - 1);
      }
    }
  }

  /** Without regularisation and with the default callback the loop runs
      exactly up to the cap and returns without error. */
  lemma {:induction false} UnregularizedRunsToCap(c: Setup, l: Loop, fuel: nat)
    requires c.Ok() && Fits(c, l.iter, l.st) && c.user.None? && !c.regularize
    requires l.iter <= c.maxIterations && fuel >= c.maxIterations - l.iter
    ensures Run(c, l, fuel).error == None && Run(c, l, fuel).last.iter == c.maxIterations
    decreases fuel
  {
    OnlyCapStopsEarly(c.regularize, l.history, l.st.lambda, l.iter, c.maxIterations);
    if l.iter < c.maxIterations {
      var it := Iteration(c, l.iter, l.st);
      assert Continues(c, l) && it.Success?;
      var next := Loop(l.iter + 1, it.value, AfterCall(c, l));
      assert Run(c, l, fuel) == Run(c, next, fuel - 1);
      UnregularizedRunsToCap(c, next, fuel - 1);
    } else {
      assert !Continues(c, l);
    }
  }

  /** The lambda stack never holds more than three values. */
  lemma {:induction false} StackBounded(c: Setup, l: Loop, fuel: nat)
    requires c.Ok() && Fits(c, l.iter, l.st) && |l.history| <= LambdaStackSize
    ensures |Run(c, l, fuel).last.history| <= LambdaStackSize
    decreases fuel
  {
    if Continues(c, l) && fuel > 0 {
      var it := Iteration(c, l.iter, l.st);
      if it.Success? {
        var next := Loop(l.iter + 1, it.value, AfterCall(c, l));
        assert Run(c, l, fuel) == Run(c, next, fuel - 1);
        StackBounded(c, next, fuel - 1);
      }
    }
  }

  /** A user callback leaves the lambda stack alone. */
  lemma {:induction false} UserCallbackKeepsStack(c: Setup, l: Loop, fuel: nat)
    requires c.Ok() && Fits(c, l.iter, l.st) && c.user.Some?
    ensures Run(c, l, fuel).last.history == l.history
    decreases fuel
  {
    if Continues(c, l) && fuel > 0 {
      var it := Iteration(c, l.iter, l.st);
      if it.Success? {
        var next := Loop(l.iter + 1, it.value, AfterCall(c, l));
        assert Run(c, l, fuel) == Run(c, next, fuel - 1);
        UserCallbackKeepsStack(c, next, fuel - 1);
      }
    }
  }

  // ------------------------------------------------------------ the class

  /** `DeconvolvePrivate`: the engine behind `Deconvolve`. */
  class DeconvolvePrivate {
    var settings: ImageSettings
    var psf: Psf
    var lambdaHistory: seq<real>
    var callback: Option<Callback>
    var regularize: bool
    var maxIterations: nat
    var snr: real

    /** The PSF is consistent, and a cached OTF was built under settings no
        newer than the current ones. */
    ghost predicate Valid()
      reads this, psf, psf.otf, settings, if psf.otf != null then {psf.otf.settings} else {}
    {
      psf.Valid() &&
      (psf.otf != null ==> psf.otf.settings != null && psf.otf.settings.id <= settings.id)
    }

    /** Fresh settings, no PSF, no callback, regularisation on, the default
        cap and no SNR. */
    constructor ()
      ensures Valid() && fresh(settings) && fresh(psf)
      ensures settings.id == 0 && settings.forward == NoPlanner && settings.inverse == NoPlanner &&
              settings.destroy == NoDestroyer
      ensures psf.data == [] && psf.otf == null && lambdaHistory == [] && callback == None
      ensures regularize && maxIterations == DefaultMaxIterations && snr == UnsetSnr
    {
      settings := new ImageSettings();
      psf := new Psf();
      lambdaHistory := [];
      callback := None;
      regularize := true;
      maxIterations := DefaultMaxIterations;
      snr := UnsetSnr;
    }

    /** `set_psf`: `PSF::set` on the stored PSF. */
    method SetPsf(src: seq<real>, n: Shape3, v: Real3) returns (err: Option<PsfError>)
      requires Valid()
      modifies psf
      ensures Valid()
      ensures |src| != 0 && |src| != Volume(n) ==>
                err == Some(InconsistentPsfSize) && psf.data == old(psf.data) && psf.otf == old(psf.otf)
      ensures !(|src| != 0 && |src| != Volume(n)) ==>
                err == None && psf.data == src && psf.dims == n && psf.voxel == v && psf.otf == null
    {
      err := psf.Set(src, n, v);
    }

    /** `set_callback`. */
    method SetCallback(cb: Callback)
      modifies this
      ensures callback == Some(cb)
      ensures settings == old(settings) && psf == old(psf) && lambdaHistory == old(lambdaHistory) &&
              regularize == old(regularize) && maxIterations == old(maxIterations) && snr == old(snr)
    {
      callback := Some(cb);
    }

    /** `clear_callback`: back to the default callback. */
    method ClearCallback()
      modifies this
      ensures callback == None
      ensures settings == old(settings) && psf == old(psf) && lambdaHistory == old(lambdaHistory) &&
              regularize == old(regularize) && maxIterations == old(maxIterations) && snr == old(snr)
    {
      callback := None;
    }

    /** `enable_regularization` / `disable_regularization`. */
    method SetRegularization(on: bool)
      modifies this
      ensures regularize == on
      ensures settings == old(settings) && psf == old(psf) && lambdaHistory == old(lambdaHistory) &&
              callback == old(callback) && maxIterations == old(maxIterations) && snr == old(snr)
    {
      regularize := on;
    }

    /** `set_snr`. */
    method SetSnr(s: real)
      modifies this
      ensures snr == s
      ensures settings == old(settings) && psf == old(psf) && lambdaHistory == old(lambdaHistory) &&
              callback == old(callback) && regularize == old(regularize) && maxIterations == old(maxIterations)
    {
      snr := s;
    }

    /** `clear_snr`: the SNR is estimated again. */
    method ClearSnr()
      modifies this
      ensures snr == UnsetSnr
      ensures settings == old(settings) && psf == old(psf) && lambdaHistory == old(lambdaHistory) &&
              callback == old(callback) && regularize == old(regularize) && maxIterations == old(maxIterations)
    {
      snr := UnsetSnr;
    }

    /** `set_max_iterations`. */
    method SetMaxIterations(m: nat)
      modifies this
      ensures maxIterations == m
      ensures settings == old(settings) && psf == old(psf) && lambdaHistory == old(lambdaHistory) &&
              callback == old(callback) && regularize == old(regularize) && snr == old(snr)
    {
      maxIterations := m;
    }

    /** `clear_max_iterations`: back to 100. */
    method ClearMaxIterations()
      modifies this
      ensures maxIterations == DefaultMaxIterations
      ensures settings == old(settings) && psf == old(psf) && lambdaHistory == old(lambdaHistory) &&
              callback == old(callback) && regularize == old(regularize) && snr == old(snr)
    {
      maxIterations := DefaultMaxIterations;
    }

    /** `set_fftw_handlers`: new settings with the handlers and a bumped id,
        so no cached OTF matches them any more. */
    method SetFftwHandlers(f: Planner, i: Planner, d: Destroyer)
      requires Valid()
      modifies this
      ensures Valid() && fresh(settings)
      ensures settings.id == old(settings.id) + 1 && settings.forward == f && settings.inverse == i &&
              settings.destroy == d
      ensures psf == old(psf) && lambdaHistory == old(lambdaHistory) && callback == old(callback) &&
              regularize == old(regularize) && maxIterations == old(maxIterations) && snr == old(snr)
      ensures forall n: Shape3, v: Real3 :: !psf.CacheHit(settings, n, v)
    {
      settings := new ImageSettings.WithHandlers(settings, f, i, d);
    }

    /** `clear_fftw_handlers`: new settings without user handlers, again
        with a bumped id. */
    method ClearFftwHandlers()
      requires Valid()
      modifies this
      ensures Valid() && fresh(settings)
      ensures settings.id == old(settings.id) + 1 && settings.forward == NoPlanner &&
              settings.inverse == NoPlanner && settings.destroy == NoDestroyer
      ensures psf == old(psf) && lambdaHistory == old(lambdaHistory) && callback == old(callback) &&
              regularize == old(regularize) && maxIterations == old(maxIterations) && snr == old(snr)
      ensures forall n: Shape3, v: Real3 :: !psf.CacheHit(settings, n, v)
    {
      settings := new ImageSettings.WithHandlers(settings, NoPlanner, NoPlanner, NoDestroyer);
    }

    /** `callback_default`: decide from the stack before pushing lambda,
        then push it (printing is not modelled). */
    method CallbackDefault(a: CallbackArgs) returns (go: int)
      modifies this
      ensures go == if DefaultContinues(old(regularize), old(lambdaHistory), a.lambda, a.iter, old(maxIterations)) then 1 else 0
      ensures lambdaHistory == Pushed(old(lambdaHistory), a.lambda)
      ensures settings == old(settings) && psf == old(psf) && callback == old(callback) &&
              regularize == old(regularize) && maxIterations == old(maxIterations) && snr == old(snr)
    {
      var done := false;
      if regularize && |lambdaHistory| >= LambdaStackSize {
        done := true;
        var i := 0;
        while i < |lambdaHistory|
          invariant 0 <= i <= |lambdaHistory|
          invariant done <==> forall j :: 0 <= j < i ==> lambdaHistory[j] > a.lambda
        {
          done := done && lambdaHistory[i] > a.lambda;
          i := i + 1;
        }
      }
      lambdaHistory := lambdaHistory + [a.lambda];
      if |lambdaHistory| > LambdaStackSize {
        lambdaHistory := lambdaHistory[1..];
      }
      go := if !done && a.iter < maxIterations then 1 else 0;
    }

    /** `convolve`: the image convolved with the OTF for its grid. */
    method Convolve(data: seq<real>, n: Shape3, v: Real3, ops: Ops) returns (r: Result<seq<real>, DeconvError>)
      requires Valid() && Positive(n) && ops.Ok()
      requires psf.IsSet() ==> psf.voxel.z != 0.0 && psf.voxel.y != 0.0 && psf.voxel.x != 0.0
      modifies psf
      ensures Valid() && psf.data == old(psf.data) && psf.dims == old(psf.dims) && psf.voxel == old(psf.voxel)
      ensures !psf.IsSet() ==> r == Failure(NoPsf)
      ensures psf.IsSet() && |data| != 0 && |data| != Volume(n) ==> r == Failure(BadImage(InconsistentSize))
      ensures psf.IsSet() && |data| == Volume(n) ==>
                var u := Interpolated(Resampling(psf.data, psf.dims, psf.voxel, n, v));
                if !old(psf.CacheHit(settings, n, v)) && Sum(u) == 0.0 then r == Failure(BadPsf(ZeroSum))
                else psf.otf != null && r == Success(ops.convolve(data, psf.otf.Voxels()))
    {
      var p := Prepare(data, n, v);
      if p.Failure? {
        return Failure(p.error);
      }
      r := Success(ops.convolve(p.value.0, p.value.1));
    }

    /** The common start of `convolve` and `deconvolve`: a PSF must be set,
        the image is built from the data, the OTF is fetched for its grid;
        the values of both are handed on. */
    method Prepare(data: seq<real>, n: Shape3, v: Real3) returns (r: Result<(seq<real>, seq<real>), DeconvError>)
      requires Valid() && Positive(n)
      requires psf.IsSet() ==> psf.voxel.z != 0.0 && psf.voxel.y != 0.0 && psf.voxel.x != 0.0
      modifies psf
      ensures Valid() && psf.data == old(psf.data) && psf.dims == old(psf.dims) && psf.voxel == old(psf.voxel)
      ensures !psf.IsSet() ==> r == Failure(NoPsf)
      ensures psf.IsSet() && |data| != 0 && |data| != Volume(n) ==> r == Failure(BadImage(InconsistentSize))
      ensures r.Success? ==> |r.value.0| == Volume(n)
      ensures psf.IsSet() && |data| == Volume(n) ==>
                var u := Interpolated(Resampling(psf.data, psf.dims, psf.voxel, n, v));
                if !old(psf.CacheHit(settings, n, v)) && Sum(u) == 0.0 then r == Failure(BadPsf(ZeroSum))
                else psf.otf != null && r == Success((data, psf.otf.Voxels()))
    {
      if !psf.IsSet() {
        return Failure(NoPsf);
      }
      var image := NewImage(settings, data, n, v);
      if image.Failure? {
        return Failure(BadImage(image.error));
      }
      var otf := psf.Otf(settings, n, v);
      if otf.Failure? {
        return Failure(BadPsf(otf.error));
      }
      var values := image.value.GetImage();
      var otfValues := otf.value.GetImage();
      r := Success((values.value, otfValues.value));
    }

    /** `deconvolve`: the image, the OTF for its grid and the SNR, then the
        loop until the callback says stop; at most `fuel` iterations. */
    method Deconvolve(data: seq<real>, n: Shape3, v: Real3, ops: Ops, fuel: nat) returns (r: Result<seq<real>, DeconvError>)
      requires Valid() && Positive(n) && ops.Ok()
      requires psf.IsSet() ==> psf.voxel.z != 0.0 && psf.voxel.y != 0.0 && psf.voxel.x != 0.0
      modifies this, psf
      ensures Valid() && psf.data == old(psf.data) && psf.dims == old(psf.dims) && psf.voxel == old(psf.voxel)
      ensures settings == old(settings) && psf == old(psf) && callback == old(callback) &&
              regularize == old(regularize) && maxIterations == old(maxIterations) && snr == old(snr)
      ensures !psf.IsSet() ==> r == Failure(NoPsf) && lambdaHistory == old(lambdaHistory)
      ensures psf.IsSet() && |data| != 0 && |data| != Volume(n) ==>
                r == Failure(BadImage(InconsistentSize)) && lambdaHistory == old(lambdaHistory)
      ensures psf.IsSet() && |data| == Volume(n) ==>
                var u := Interpolated(Resampling(psf.data, psf.dims, psf.voxel, n, v));
                if !old(psf.CacheHit(settings, n, v)) && Sum(u) == 0.0 then
                  r == Failure(BadPsf(ZeroSum)) && lambdaHistory == old(lambdaHistory)
                else
                  psf.otf != null &&
                  var snrUsed := EffectiveSnr(snr, ops, data);
                  var c := Setup(ops, data, psf.otf.Voxels(), regularize, snrUsed,
                                 UserAnswer(callback, snrUsed), maxIterations);
                  r == Outcome(Run(c, Start(c), fuel)) && lambdaHistory == Run(c, Start(c), fuel).last.history
    {
      var p := Prepare(data, n, v);
      if p.Failure? {
        return Failure(p.error);
      }
      var snrUsed := EffectiveSnr(snr, ops, p.value.0);
      var c := Setup(ops, p.value.0, p.value.1, regularize, snrUsed,
                     UserAnswer(callback, snrUsed), maxIterations);
      r := Iterate(c, fuel);
    }

    /** The `for` loop of `deconvolve`: the lambda stack starts empty, each
        round asks the callback and then runs one iteration. */
    method Iterate(c: Setup, fuel: nat) returns (r: Result<seq<real>, DeconvError>)
      requires c.Ok() && c.user == UserAnswer(callback, c.snr)
      requires regularize == c.regularize && maxIterations == c.maxIterations
      modifies this
      ensures settings == old(settings) && psf == old(psf) && callback == old(callback) &&
              regularize == old(regularize) && maxIterations == old(maxIterations) && snr == old(snr)
      ensures r == Outcome(Run(c, Start(c), fuel)) && lambdaHistory == Run(c, Start(c), fuel).last.history
    {
      lambdaHistory := [];
      var l := Start(c);
      var f := fuel;
      while true
        invariant Fits(c, l.iter, l.st)
        invariant Run(c, l, f) == Run(c, Start(c), fuel)
        invariant lambdaHistory == l.history
        invariant settings == old(settings) && psf == old(psf) && callback == old(callback) &&
                  regularize == old(regularize) && maxIterations == old(maxIterations) && snr == old(snr)
        decreases f
      {
        var go := Ask(c, l);
        var h := lambdaHistory;
        if !go {
          return Success(l.st.oC);
        }
        if f == 0 {
          return Failure(OutOfFuel);
        }
        var next := Iteration(c, l.iter, l.st);
        if next.Failure? {
          return Failure(next.error);
        }
        RunStep(c, l, f);
        l := Loop(l.iter + 1, next.value, h);
        f := f - 1;
      }
    }

    /** The loop condition of `deconvolve`: the user's callback when set,
        otherwise `callback_default`, which also pushes lambda. */
    method Ask(c: Setup, l: Loop) returns (go: bool)
      requires c.Ok() && Fits(c, l.iter, l.st) && lambdaHistory == l.history
      requires c.user == UserAnswer(callback, c.snr)
      requires regularize == c.regularize && maxIterations == c.maxIterations
      modifies this
      ensures go == Continues(c, l) && lambdaHistory == AfterCall(c, l)
      ensures settings == old(settings) && psf == old(psf) && callback == old(callback) &&
              regularize == old(regularize) && maxIterations == old(maxIterations) && snr == old(snr)
    {
      if callback.Some? {
        go := callback.value(Args(c.snr, l)) != 0;
      } else {
        var k := CallbackDefault(Args(c.snr, l));
        go := k != 0;
      }
    }
  }
}
