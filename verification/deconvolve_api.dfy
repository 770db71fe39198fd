/** The public API of IOCBIO Deconvolve (`deconvolve/cpp/include/deconvolve.hpp`,
    `deconvolve/cpp/src/deconvolve.cpp`): a thin class over the private
    engine. Voxel sizes arrive in meters and are converted to nanometers on
    the way in; convolution and deconvolution work on a copy of the caller's
    data. */
module DeconvolveApi {
  import opened Wrappers
  import opened PyNum
  import opened NdArray
  import opened FftwSettings
  import opened Images
  import opened PsfOtf
  import opened DeconvolvePriv

  /** Meters to nanometers. */
  const NanometersPerMeter: real := 1000000000.0

  /** Voxel sizes scaled by k on every axis. */
  function Scaled(v: Real3, k: real): Real3
  {
    Real3(v.z * k, v.y * k, v.x * k)
  }

  /** Voxel sizes given in meters, in nanometers. */
  function InNanometers(v: Real3): Real3
  {
    Scaled(v, NanometersPerMeter)
  }

  /** `callback_extended_type`: a callback that also receives the user's
      data pointer (modelled as an address). */
  type ExtendedCallback = (nat, CallbackArgs) -> int

  /** `std::bind(callback, user_data, _1, ..., _9)`. */
  function Bind(cb: ExtendedCallback, userData: nat): (c: Callback)
    ensures forall a :: c(a) == cb(userData, a)
  {
    (a: CallbackArgs) => cb(userData, a)
  }

  // ------------------------------------------------------- unit invariance

  /** A common factor of numerator and denominator cancels. */
  lemma CancelFactor(a: real, b: real, k: real)
    requires b != 0.0 && k != 0.0
    ensures (k * a) / (k * b) == a / b
  {
    var q := a / b;
    assert q * b == a;
    assert q * (k * b) == k * a;
  }

  /** Where an output index falls on a PSF axis depends only on the ratio
      of the two voxel sizes. */
  lemma SampleUnitFree(i: nat, n: nat, v: real, m: nat, vp: real, k: real, vk: real, vpk: real)
    requires vp != 0.0 && k != 0.0 && vk == v * k && vpk == vp * k && vpk != 0.0
    ensures Sample(i, n, vk, m, vpk) == Sample(i, n, v, m, vp)
  {
    var x := (i as real + 0.5) - n as real * 0.5;
    var c1 := Centre(i as real, n, vk);
    var c0 := Centre(i as real, n, v);
    assert c1 == k * c0;
    assert vpk == k * vp;
    CancelFactor(c0, vp, k);
    assert c1 / vpk == c0 / vp;
    assert GetInd(c1, vpk, m) == GetInd(c0, vp, m);
  }

  /** Scaling by a non-zero factor keeps non-zero sizes non-zero. */
  lemma ScaledNonZero(v: Real3, k: real)
    requires v.z != 0.0 && v.y != 0.0 && v.x != 0.0 && k != 0.0
    ensures Scaled(v, k).z != 0.0 && Scaled(v, k).y != 0.0 && Scaled(v, k).x != 0.0
  {
  }

  /** One output voxel of the resampling, in either unit. */
  lemma InterpAtUnitFree(g: Resampling, k: real, i1: nat, i2: nat, i3: nat)
    requires g.Ok() && k != 0.0
    ensures g.(vp := Scaled(g.vp, k), v := Scaled(g.v, k)).Ok()
    ensures InterpAt(g.(vp := Scaled(g.vp, k), v := Scaled(g.v, k)), i1, i2, i3) == InterpAt(g, i1, i2, i3)
  {
    ScaledNonZero(g.vp, k);
    var h := g.(vp := Scaled(g.vp, k), v := Scaled(g.v, k));
    SampleUnitFree(i1, g.n.n0, g.v.z, g.m.n0, g.vp.z, k, h.v.z, h.vp.z);
    SampleUnitFree(i2, g.n.n1, g.v.y, g.m.n1, g.vp.y, k, h.v.y, h.vp.y);
    SampleUnitFree(i3, g.n.n2, g.v.x, g.m.n2, g.vp.x, k, h.v.x, h.vp.x);
    SameSamples(g, h, i1, i2, i3);
  }

  /** Two resamplings of the same PSF whose output voxel falls on the same
      PSF position agree there. */
  lemma SameSamples(g: Resampling, h: Resampling, i1: nat, i2: nat, i3: nat)
    requires g.Ok() && h.Ok() && h.data == g.data && h.m == g.m && h.n == g.n
    requires Sample(i1, g.n.n0, g.v.z, g.m.n0, g.vp.z) == Sample(i1, h.n.n0, h.v.z, h.m.n0, h.vp.z)
    requires Sample(i2, g.n.n1, g.v.y, g.m.n1, g.vp.y) == Sample(i2, h.n.n1, h.v.y, h.m.n1, h.vp.y)
    requires Sample(i3, g.n.n2, g.v.x, g.m.n2, g.vp.x) == Sample(i3, h.n.n2, h.v.x, h.m.n2, h.vp.x)
    ensures InterpAt(h, i1, i2, i3) == InterpAt(g, i1, i2, i3)
  {
  }

  /** Expressing both grids in another unit (the same one for both) leaves
      the resampled PSF unchanged: the meters-to-nanometers conversion of
      `set_psf`, `convolve` and `deconvolve` does not change the result as
      long as both sides are converted. */
  lemma ResamplingUnitFree(data: seq<real>, m: Shape3, vp: Real3, n: Shape3, v: Real3, k: real)
    requires Resampling(data, m, vp, n, v).Ok() && k != 0.0
    ensures Resampling(data, m, Scaled(vp, k), n, Scaled(v, k)).Ok()
    ensures Interpolated(Resampling(data, m, Scaled(vp, k), n, Scaled(v, k))) ==
            Interpolated(Resampling(data, m, vp, n, v))
  {
    var g := Resampling(data, m, vp, n, v);
    var h := Resampling(data, m, Scaled(vp, k), n, Scaled(v, k));
    assert h == g.(vp := Scaled(g.vp, k), v := Scaled(g.v, k));
    forall t | 0 <= t < Volume(n)
      ensures Interpolated(h)[t] == Interpolated(g)[t]
    {
      var p := Source(t, n);
      InterpAtUnitFree(g, k, p.a, p.b, p.c);
    }
  }

  // -------------------------------------------------------------- the class

  /** `Deconvolve<T>`: owns the private engine. */
  class Deconvolve {
    var dec: DeconvolvePrivate

    ghost predicate Valid()
      reads this, dec, dec.psf, dec.psf.otf, dec.settings,
            if dec.psf.otf != null then {dec.psf.otf.settings} else {}
    {
      dec.Valid()
    }

    /** A new engine: regularised, capped at 100 iterations, no PSF, no
        callback and no SNR. */
    constructor ()
      ensures Valid() && fresh(dec) && fresh(dec.psf) && fresh(dec.settings)
      ensures dec.settings.id == 0 && !dec.psf.IsSet() && dec.psf.otf == null
      ensures dec.callback == None && dec.regularize && dec.maxIterations == DefaultMaxIterations &&
              dec.snr == UnsetSnr
    {
      dec := new DeconvolvePrivate();
    }

    /** `set_psf`: the PSF with its voxel sizes converted to nanometers;
        the last one set is the one used. */
    method SetPsf(data: seq<real>, n: Shape3, v: Real3) returns (err: Option<PsfError>)
      requires Valid()
      modifies dec.psf
      ensures Valid()
      ensures |data| != 0 && |data| != Volume(n) ==>
                err == Some(InconsistentPsfSize) && dec.psf.data == old(dec.psf.data) &&
                dec.psf.otf == old(dec.psf.otf)
      ensures !(|data| != 0 && |data| != Volume(n)) ==>
                err == None && dec.psf.data == data && dec.psf.dims == n &&
                dec.psf.voxel == InNanometers(v) && dec.psf.otf == null
    {
      err := dec.SetPsf(data, n, InNanometers(v));
    }

    /** `set_callback` for a C or C++ callback. */
    method SetCallback(cb: Callback)
      requires Valid()
      modifies dec
      ensures Valid() && dec.callback == Some(cb)
      ensures dec.settings == old(dec.settings) && dec.psf == old(dec.psf) &&
              dec.regularize == old(dec.regularize) && dec.maxIterations == old(dec.maxIterations) &&
              dec.snr == old(dec.snr)
    {
      dec.SetCallback(cb);
    }

    /** `set_callback` for an extended callback: every call receives
        `userData` first. */
    method SetCallbackExtended(cb: ExtendedCallback, userData: nat)
      requires Valid()
      modifies dec
      ensures Valid() && dec.callback.Some?
      ensures forall a :: dec.callback.value(a) == cb(userData, a)
      ensures dec.settings == old(dec.settings) && dec.psf == old(dec.psf) &&
              dec.regularize == old(dec.regularize) && dec.maxIterations == old(dec.maxIterations) &&
              dec.snr == old(dec.snr)
    {
      dec.SetCallback(Bind(cb, userData));
    }

    /** `clear_callback`: the default callback again, whatever was set. */
    method ClearCallback()
      requires Valid()
      modifies dec
      ensures Valid() && dec.callback == None
      ensures dec.settings == old(dec.settings) && dec.psf == old(dec.psf) &&
              dec.regularize == old(dec.regularize) && dec.maxIterations == old(dec.maxIterations) &&
              dec.snr == old(dec.snr)
    {
      dec.ClearCallback();
    }

    /** `enable_regularization`. */
    method EnableRegularization()
      requires Valid()
      modifies dec
      ensures Valid() && dec.regularize
      ensures dec.settings == old(dec.settings) && dec.psf == old(dec.psf) &&
              dec.callback == old(dec.callback) && dec.maxIterations == old(dec.maxIterations) &&
              dec.snr == old(dec.snr)
    {
      dec.SetRegularization(true);
    }

    /** `disable_regularization`. */
    method DisableRegularization()
      requires Valid()
      modifies dec
      ensures Valid() && !dec.regularize
      ensures dec.settings == old(dec.settings) && dec.psf == old(dec.psf) &&
              dec.callback == old(dec.callback) && dec.maxIterations == old(dec.maxIterations) &&
              dec.snr == old(dec.snr)
    {
      dec.SetRegularization(false);
    }

    /** `regularized`. */
    method Regularized() returns (on: bool)
      ensures on == dec.regularize
    {
      on := dec.regularize;
    }

    /** `set_snr`. */
    method SetSnr(s: real)
      requires Valid()
      modifies dec
      ensures Valid() && dec.snr == s
      ensures dec.settings == old(dec.settings) && dec.psf == old(dec.psf) &&
              dec.callback == old(dec.callback) && dec.regularize == old(dec.regularize) &&
              dec.maxIterations == old(dec.maxIterations)
    {
      dec.SetSnr(s);
    }

    /** `clear_snr`. */
    method ClearSnr()
      requires Valid()
      modifies dec
      ensures Valid() && dec.snr == UnsetSnr
      ensures dec.settings == old(dec.settings) && dec.psf == old(dec.psf) &&
              dec.callback == old(dec.callback) && dec.regularize == old(dec.regularize) &&
              dec.maxIterations == old(dec.maxIterations)
    {
      dec.ClearSnr();
    }

    /** `set_max_iterations`. */
    method SetMaxIterations(iters: nat)
      requires Valid()
      modifies dec
      ensures Valid() && dec.maxIterations == iters
      ensures dec.settings == old(dec.settings) && dec.psf == old(dec.psf) &&
              dec.callback == old(dec.callback) && dec.regularize == old(dec.regularize) &&
              dec.snr == old(dec.snr)
    {
      dec.SetMaxIterations(iters);
    }

    /** `clear_max_iterations`. */
    method ClearMaxIterations()
      requires Valid()
      modifies dec
      ensures Valid() && dec.maxIterations == DefaultMaxIterations
      ensures dec.settings == old(dec.settings) && dec.psf == old(dec.psf) &&
              dec.callback == old(dec.callback) && dec.regularize == old(dec.regularize) &&
              dec.snr == old(dec.snr)
    {
      dec.ClearMaxIterations();
    }

    /** `max_iterations`. */
    method MaxIterations() returns (iters: nat)
      ensures iters == dec.maxIterations
    {
      iters := dec.maxIterations;
    }

    /** `set_fftw_handlers`: no cached OTF survives. */
    method SetFftwHandlers(f: Planner, i: Planner, d: Destroyer)
      requires Valid()
      modifies dec
      ensures Valid() && dec.settings.forward == f && dec.settings.inverse == i && dec.settings.destroy == d
      ensures dec.settings.id == old(dec.settings.id) + 1
      ensures dec.psf == old(dec.psf) && dec.callback == old(dec.callback) &&
              dec.regularize == old(dec.regularize) && dec.maxIterations == old(dec.maxIterations) &&
              dec.snr == old(dec.snr)
      ensures forall n: Shape3, v: Real3 :: !dec.psf.CacheHit(dec.settings, n, v)
    {
      dec.SetFftwHandlers(f, i, d);
    }

    /** `clear_fftw_handlers`. */
    method ClearFftwHandlers()
      requires Valid()
      modifies dec
      ensures Valid() && dec.settings.forward == NoPlanner && dec.settings.inverse == NoPlanner &&
              dec.settings.destroy == NoDestroyer
      ensures dec.settings.id == old(dec.settings.id) + 1
      ensures dec.psf == old(dec.psf) && dec.callback == old(dec.callback) &&
              dec.regularize == old(dec.regularize) && dec.maxIterations == old(dec.maxIterations) &&
              dec.snr == old(dec.snr)
      ensures forall n: Shape3, v: Real3 :: !dec.psf.CacheHit(dec.settings, n, v)
    {
      dec.ClearFftwHandlers();
    }

    /** `convolve`: a copy of the data, convolved on the image grid given
        in meters; the caller's data is a value and stays as it was. */
    method Convolve(data: seq<real>, n: Shape3, v: Real3, ops: Ops) returns (r: Result<seq<real>, DeconvError>)
      requires Valid() && Positive(n) && ops.Ok()
      requires dec.psf.IsSet() ==> dec.psf.voxel.z != 0.0 && dec.psf.voxel.y != 0.0 && dec.psf.voxel.x != 0.0
      modifies dec.psf
      ensures Valid() && dec.psf.data == old(dec.psf.data) && dec.psf.dims == old(dec.psf.dims) &&
              dec.psf.voxel == old(dec.psf.voxel)
      ensures !dec.psf.IsSet() ==> r == Failure(NoPsf)
      ensures dec.psf.IsSet() && |data| != 0 && |data| != Volume(n) ==> r == Failure(BadImage(InconsistentSize))
      ensures dec.psf.IsSet() && |data| == Volume(n) ==>
                var w := InNanometers(v);
                var u := Interpolated(Resampling(dec.psf.data, dec.psf.dims, dec.psf.voxel, n, w));
                if !old(dec.psf.CacheHit(dec.settings, n, w)) && Sum(u) == 0.0 then r == Failure(BadPsf(ZeroSum))
                else dec.psf.otf != null && r == Success(ops.convolve(data, dec.psf.otf.Voxels()))
    {
      var result := data;
      r := dec.Convolve(result, n, InNanometers(v), ops);
    }

    /** `deconvolve`: a copy of the data, deconvolved on the image grid
        given in meters (at most `fuel` iterations). */
    method Deconvolve(data: seq<real>, n: Shape3, v: Real3, ops: Ops, fuel: nat) returns (r: Result<seq<real>, DeconvError>)
      requires Valid() && Positive(n) && ops.Ok()
      requires dec.psf.IsSet() ==> dec.psf.voxel.z != 0.0 && dec.psf.voxel.y != 0.0 && dec.psf.voxel.x != 0.0
      modifies dec, dec.psf
      ensures Valid() && dec.psf.data == old(dec.psf.data) && dec.psf.dims == old(dec.psf.dims) &&
              dec.psf.voxel == old(dec.psf.voxel)
      ensures dec.settings == old(dec.settings) && dec.psf == old(dec.psf) && dec.callback == old(dec.callback) &&
              dec.regularize == old(dec.regularize) && dec.maxIterations == old(dec.maxIterations) &&
              dec.snr == old(dec.snr)
      ensures !dec.psf.IsSet() ==> r == Failure(NoPsf)
      ensures dec.psf.IsSet() && |data| != 0 && |data| != Volume(n) ==> r == Failure(BadImage(InconsistentSize))
      ensures dec.psf.IsSet() && |data| == Volume(n) ==>
                var w := InNanometers(v);
                var u := Interpolated(Resampling(dec.psf.data, dec.psf.dims, dec.psf.voxel, n, w));
                if !old(dec.psf.CacheHit(dec.settings, n, w)) && Sum(u) == 0.0 then r == Failure(BadPsf(ZeroSum))
                else
                  dec.psf.otf != null &&
                  var snrUsed := EffectiveSnr(dec.snr, ops, data);
                  var c := Setup(ops, data, dec.psf.otf.Voxels(), dec.regularize, snrUsed,
                                 UserAnswer(dec.callback, snrUsed), dec.maxIterations);
                  r == Outcome(Run(c, Start(c), fuel))
    {
      var result := data;
      r := dec.Deconvolve(result, n, InNanometers(v), ops, fuel);
    }
  }

  /** A PSF set through the API and an image convolved through it are
      resampled as if both were given in meters. */
  lemma ApiUnitsAgree(data: seq<real>, m: Shape3, vp: Real3, n: Shape3, v: Real3)
    requires Resampling(data, m, vp, n, v).Ok()
    ensures Interpolated(Resampling(data, m, InNanometers(vp), n, InNanometers(v))) ==
            Interpolated(Resampling(data, m, vp, n, v))
  {
    ResamplingUnitFree(data, m, vp, n, v, NanometersPerMeter);
  }
}
