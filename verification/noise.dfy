/** The camera-noise helpers of `pycroscopy/deconvolution/noise.py`:
    photon counting, the integer density histogram and the choice of an
    integer gain. Images are flattened to sequences. The two loss
    functions evaluate scipy distributions and the 'gp' branch calls
    scipy's optimiser; both are given as parameters. */
module Noise {
  import opened Wrappers
  import opened PyNum

  /** The offset `photon_count` subtracts, whatever its `offset` argument. */
  const CameraOffset: real := 100.0

  /** The exceptions of these helpers. */
  datatype NoiseError =
    | ValueError         // min()/argmin() of an empty array
    | AssertionError     // loss_poisson given a gain that is not an int
    | UnboundLocalError  // estimate_gain with an unknown distribution
    | IndexError         // np.diff(re_bins)[0] with fewer than two re-binned values

  // ------------------------------------------------------------ photon_count

  /** One pixel of `photon_count` before the clamp:
      `round((x - 100) / gain)`, ties to even. */
  function Rounded(x: real, gain: real): int
    requires gain != 0.0
  {
    RoundHalfEven((x - CameraOffset) / gain)
  }

  /** One pixel of `photon_count`: the rounded value, with negatives set to 0. */
  function PhotonValue(x: real, gain: real): (n: int)
    requires gain != 0.0
    ensures n >= 0
    ensures n == 0 || n == Rounded(x, gain)
    ensures Rounded(x, gain) >= 0 ==> n == Rounded(x, gain)
  {
    if Rounded(x, gain) < 0 then 0 else Rounded(x, gain)
  }

  /** `norm_img[norm_img < 0] = 0`, applied to a whole image. */
  function Clamped(s: seq<int>): (c: seq<int>)
    ensures |c| == |s|
    ensures forall i :: 0 <= i < |s| ==> c[i] >= 0 && (s[i] >= 0 ==> c[i] == s[i]) && (s[i] < 0 ==> c[i] == 0)
  {
    seq(|s|, i requires 0 <= i < |s| => if s[i] < 0 then 0 else s[i])
  }

  /** The in-place clamp of `photon_count`. */
  method ClampNegatives(a: array<int>)
    modifies a
    ensures a[..] == Clamped(old(a[..]))
  {
    for i := 0 to a.Length
      invariant forall k :: 0 <= k < i ==> a[k] == Clamped(old(a[..]))[k]
      invariant forall k :: i <= k < a.Length ==> a[k] == old(a[k])
    {
      if a[i] < 0 {
        a[i] := 0;
      }
    }
  }

  /** `photon_count(img, gain, offset)`: the offset argument is not used. */
  method PhotonCount(img: seq<real>, gain: real, offset: real) returns (normImg: array<int>)
    requires gain != 0.0
    ensures fresh(normImg)
    ensures normImg.Length == |img|
    ensures forall i :: 0 <= i < |img| ==> normImg[i] == PhotonValue(img[i], gain)
  {
    normImg := new int[|img|](i requires 0 <= i < |img| => Rounded(img[i], gain));
    ghost var before := normImg[..];
    ClampNegatives(normImg);
    assert forall i :: 0 <= i < |img| ==> before[i] == Rounded(img[i], gain);
  }

  /** With unit gain an integer pixel value at or above the camera offset
      becomes its excess over the offset, and one below it becomes 0; the
      result is the same whatever offset the caller asked for. */
  lemma UnitGainCounts(x: int)
    ensures PhotonValue(x as real, 1.0) == if x >= 100 then x - 100 else 0
  {
    var r := Rounded(x as real, 1.0);
    assert (x as real - CameraOffset) / 1.0 == (x - 100) as real;
  }

  /** Counting is monotone in the pixel value for a positive gain. */
  lemma PhotonValueMonotone(x: real, y: real, gain: real)
    requires gain > 0.0 && x <= y
    ensures PhotonValue(x, gain) <= PhotonValue(y, gain)
  {
    var u, v := (x - CameraOffset) / gain, (y - CameraOffset) / gain;
    assert u <= v by {
      assert v - u == (y - x) / gain;
    }
    RoundMonotone(u, v);
  }

  /** Rounding half to even never reverses an order. */
  lemma RoundMonotone(u: real, v: real)
    requires u <= v
    ensures RoundHalfEven(u) <= RoundHalfEven(v)
  {
  }

  // ------------------------------------------------------------------ hist

  /** The number of values x of img with lo <= x < hi. */
  function Count(img: seq<int>, lo: int, hi: int): (n: nat)
    ensures n <= |img|
  {
    if |img| == 0 then 0
    else Count(img[..|img| - 1], lo, hi) + (if lo <= img[|img| - 1] < hi then 1 else 0)
  }

  /** `img.min()`, for a non-empty image. */
  function Min(img: seq<int>): (m: int)
    requires |img| > 0
    ensures forall i :: 0 <= i < |img| ==> m <= img[i]
  {
    if |img| == 1 then img[0]
    else
      var m := Min(img[..|img| - 1]);
      assert forall i :: 0 <= i < |img| - 1 ==> img[..|img| - 1][i] == img[i];
      if img[|img| - 1] < m then img[|img| - 1] else m
  }

  /** `img.max()`, for a non-empty image. */
  function Max(img: seq<int>): (m: int)
    requires |img| > 0
    ensures forall i :: 0 <= i < |img| ==> img[i] <= m
  {
    if |img| == 1 then img[0]
    else
      var m := Max(img[..|img| - 1]);
      assert forall i :: 0 <= i < |img| - 1 ==> img[..|img| - 1][i] == img[i];
      if img[|img| - 1] > m then img[|img| - 1] else m
  }

  /** The minimum and the maximum are values of the image. */
  lemma {:induction false} MinMaxAttained(img: seq<int>)
    requires |img| > 0
    ensures Min(img) in img && Max(img) in img
    decreases |img|
  {
    if |img| > 1 {
      var init := img[..|img| - 1];
      MinMaxAttained(init);
      assert img == init + [img[|img| - 1]];
    }
  }

  /** Bar j of the density histogram with bins start..end-1 and edges
      start, start+1, ..., end-1, end+1. numpy's last bin is closed and
      spans two values. */
  function Bar(img: seq<int>, start: int, end: int, j: int): real
    requires |img| > 0
  {
    if start + j < end - 1 then Share(Count(img, start + j, start + j + 1), |img|)
    else HalfShare(Count(img, end - 1, end + 2), |img|)
  }

  /** The fraction c/n of an image of n values. */
  function Share(c: nat, n: nat): real
    requires n > 0
  {
    c as real / n as real
  }

  /** The density c/(2n) of a bar two values wide. */
  function HalfShare(c: nat, n: nat): real
    requires n > 0
  {
    c as real / (2.0 * n as real)
  }

  lemma ShareAdd(a: nat, b: nat, n: nat)
    requires n > 0
    ensures Share(a, n) + Share(b, n) == Share(a + b, n)
  {
  }

  lemma HalfShareTwice(c: nat, n: nat)
    requires n > 0
    ensures 2.0 * HalfShare(c, n) == Share(c, n)
  {
  }

  lemma ShareWhole(n: nat)
    requires n > 0
    ensures Share(n, n) == 1.0
  {
  }

  /** `hist(img)`: the integer bins min..max-1 and their density bars. */
  function Hist(img: seq<int>): (r: Result<(seq<int>, seq<real>), NoiseError>)
    ensures r.Failure? <==> |img| == 0
    ensures r.Success? ==> |r.value.0| == |r.value.1| == Max(img) - Min(img)
    ensures r.Success? ==> forall j :: 0 <= j < |r.value.0| ==> r.value.0[j] == Min(img) + j
    ensures r.Success? ==> forall j :: 0 <= j < |r.value.1| ==> r.value.1[j] == Bar(img, Min(img), Max(img), j)
  {
    if |img| == 0 then Failure(ValueError)
    else
      var start, end := Min(img), Max(img);
      var bins := seq(end - start, j requires 0 <= j < end - start => start + j);
      var bars := seq(end - start, j requires 0 <= j < end - start => Bar(img, start, end, j));
      Success((bins, bars))
  }

  /** Every bar but the last is the share of one value. */
  lemma HistInnerBars(img: seq<int>)
    requires |img| > 0 && Min(img) < Max(img)
    ensures var bins := Hist(img).value.0; var bars := Hist(img).value.1;
            forall j :: 0 <= j < |bars| - 1 ==> bars[j] == Share(Count(img, bins[j], bins[j] + 1), |img|)
  {
    var bins := Hist(img).value.0;
    var bars := Hist(img).value.1;
    forall j | 0 <= j < |bars| - 1
      ensures bars[j] == Share(Count(img, bins[j], bins[j] + 1), |img|)
    {
      assert bars[j] == Bar(img, Min(img), Max(img), j);
    }
  }

  /** The last bar covers the two values max-1 and max: it is half their
      joint share. */
  lemma HistLastBar(img: seq<int>)
    requires |img| > 0 && Min(img) < Max(img)
    ensures var bars := Hist(img).value.1; var hi := Max(img);
            bars[|bars| - 1] == HalfShare(Count(img, hi - 1, hi + 2), |img|) &&
            Count(img, hi - 1, hi + 2) == Count(img, hi - 1, hi) + Count(img, hi, hi + 1)
  {
    var bars := Hist(img).value.1;
    var hi := Max(img);
    assert bars[|bars| - 1] == Bar(img, Min(img), hi, |bars| - 1);
    LastBinCounts(img, hi);
  }

  /** The closed last bin [max-1, max+1] holds the values max-1 and max. */
  lemma LastBinCounts(img: seq<int>, hi: int)
    requires forall i :: 0 <= i < |img| ==> img[i] <= hi
    ensures Count(img, hi - 1, hi + 2) == Count(img, hi - 1, hi) + Count(img, hi, hi + 1)
  {
    CountSplit(img, hi - 1, hi, hi + 1);
    CountSplit(img, hi - 1, hi + 1, hi + 2);
    CountAbove(img, hi, hi + 1, hi + 2);
  }

  lemma InnerBar(img: seq<int>, j: nat)
    requires |img| > 0 && j < Max(img) - Min(img) - 1
    ensures Hist(img).value.1[j] == Share(Count(img, Min(img) + j, Min(img) + j + 1), |img|)
  {
    assert Hist(img).value.1[j] == Bar(img, Min(img), Max(img), j);
  }

  /** Counting over [a, c) is counting over [a, b) and over [b, c). */
  lemma {:induction false} CountSplit(img: seq<int>, a: int, b: int, c: int)
    requires a <= b <= c
    ensures Count(img, a, c) == Count(img, a, b) + Count(img, b, c)
    decreases |img|
  {
    if |img| > 0 {
      CountSplit(img[..|img| - 1], a, b, c);
    }
  }

  /** Nothing is counted above a bound of every value. */
  lemma {:induction false} CountAbove(img: seq<int>, bound: int, lo: int, hi: int)
    requires lo > bound && forall i :: 0 <= i < |img| ==> img[i] <= bound
    ensures Count(img, lo, hi) == 0
    decreases |img|
  {
    if |img| > 0 {
      var init := img[..|img| - 1];
      assert forall i :: 0 <= i < |init| ==> init[i] == img[i];
      CountAbove(init, bound, lo, hi);
    }
  }

  /** Every value lies between the minimum and the maximum. */
  lemma {:induction false} CountAll(img: seq<int>, lo: int, hi: int)
    requires forall i :: 0 <= i < |img| ==> lo <= img[i] < hi
    ensures Count(img, lo, hi) == |img|
    decreases |img|
  {
    if |img| > 0 {
      CountAll(img[..|img| - 1], lo, hi);
    }
  }

  /** Bar j times its width. */
  function Mass(bars: seq<real>, j: int): real
    requires 0 <= j < |bars|
  {
    if j < |bars| - 1 then bars[j] else 2.0 * bars[j]
  }

  /** The first j bars times their widths, summed. */
  function Masses(bars: seq<real>, j: nat): (s: seq<real>)
    requires j <= |bars|
    ensures |s| == j && forall i :: 0 <= i < j ==> s[i] == Mass(bars, i)
  {
    seq(j, i requires 0 <= i < j => Mass(bars, i))
  }

  /** The histogram is a density: its bars times their widths sum to 1
      whenever the image holds two distinct values. */
  lemma HistIsDensity(img: seq<int>)
    requires |img| > 0 && Min(img) < Max(img)
    ensures var bars := Hist(img).value.1; Sum(Masses(bars, |bars|)) == 1.0
  {
    var start, end := Min(img), Max(img);
    var bars := Hist(img).value.1;
    var k := |bars|;
    var n := |img|;
    HistPrefix(img, k - 1);
    var ms := Masses(bars, k);
    assert ms[..k - 1] == Masses(bars, k - 1);
    var c := Count(img, end - 1, end + 2);
    HistLastBar(img);
    HalfShareTwice(c, n);
    ShareAdd(Count(img, start, end - 1), c, n);
    CountTotal(img);
    ShareWhole(n);
  }

  /** The bins and the closed last bin hold every value. */
  lemma CountTotal(img: seq<int>)
    requires |img| > 0 && Min(img) < Max(img)
    ensures Count(img, Min(img), Max(img) - 1) + Count(img, Max(img) - 1, Max(img) + 2) == |img|
  {
    var lo, hi := Min(img), Max(img);
    assert forall i :: 0 <= i < |img| ==> lo <= img[i] <= hi;
    CountWithin(img, lo, hi);
  }

  lemma CountWithin(img: seq<int>, lo: int, hi: int)
    requires lo < hi && forall i :: 0 <= i < |img| ==> lo <= img[i] <= hi
    ensures Count(img, lo, hi - 1) + Count(img, hi - 1, hi + 2) == |img|
  {
    CountSplit(img, lo, hi - 1, hi + 2);
    CountAll(img, lo, hi + 2);
  }

  /** The first j bars (none of them the last) carry the share of the
      values start..start+j-1. */
  lemma {:induction false} HistPrefix(img: seq<int>, j: nat)
    requires |img| > 0 && Min(img) < Max(img) && j < Max(img) - Min(img)
    ensures var bars := Hist(img).value.1;
            Sum(Masses(bars, j)) == Share(Count(img, Min(img), Min(img) + j), |img|)
    decreases j
  {
    var start, end := Min(img), Max(img);
    var bars := Hist(img).value.1;
    var n := |img|;
    if j == 0 {
      CountSplit(img, start, start, start);
    } else {
      HistPrefix(img, j - 1);
      var ms := Masses(bars, j);
      assert ms[..j - 1] == Masses(bars, j - 1);
      InnerBar(img, j - 1);
      CountSplit(img, start, start + j - 1, start + j);
      ShareAdd(Count(img, start, start + j - 1), Count(img, start + j - 1, start + j), n);
    }
  }

  // ------------------------------------------------------------ estimate_gain

  /** A gain as `estimate_gain` returns it: an int from the 'p' branch, a
      float from the 'gp' branch. */
  datatype Gain = IntGain(g: int) | FloatGain(x: real)

  /** The guard of `loss_poisson`: only an int gain gets through. */
  function PoissonGain(gain: Gain): (r: Result<int, NoiseError>)
    ensures r.Success? <==> gain.IntGain?
    ensures r.Success? ==> r.value == gain.g
  {
    match gain
    case IntGain(g) => Success(g)
    case FloatGain(_) => Failure(AssertionError)
  }

  /** `list(range(lo, hi))`. */
  function Candidates(lo: int, hi: int): (r: seq<int>)
    ensures |r| == (if hi > lo then hi - lo else 0)
    ensures forall k :: 0 <= k < |r| ==> r[k] == lo + k
  {
    seq(if hi > lo then hi - lo else 0, k => lo + k)
  }

  /** `np.argmin(xs)`: the first index of the smallest value. */
  function ArgMin(xs: seq<real>): (r: nat)
    requires |xs| > 0
    ensures r < |xs|
    ensures forall i :: 0 <= i < |xs| ==> xs[r] <= xs[i]
    ensures forall i :: 0 <= i < r ==> xs[r] < xs[i]
  {
    if |xs| == 1 then 0
    else
      var r := ArgMin(xs[..|xs| - 1]);
      assert forall i :: 0 <= i < |xs| - 1 ==> xs[..|xs| - 1][i] == xs[i];
      if xs[|xs| - 1] < xs[r] then |xs| - 1 else r
  }

  /** One entry of `(bins / gain).astype(int)`: numpy's true division, cast
      towards zero. For gain 0 every quotient is inf or nan, which the cast maps
      to one and the same integer; 0 stands for it here. */
  function ReBin(b: int, g: int): int
  {
    if g == 0 then 0 else Trunc(b as real / g as real)
  }

  /** `np.diff(re_bins)[0]` exists: `set(temp)` holds at least two values. */
  predicate TwoReBins(bins: seq<int>, g: int)
  {
    exists i, j :: 0 <= i < |bins| && 0 <= j < |bins| && ReBin(bins[i], g) != ReBin(bins[j], g)
  }

  /** `loss_poisson(g, bins, bars, offset)` for an int gain: IndexError when the
      re-binned values collapse to fewer than two, otherwise the scipy loss. */
  function LossPoisson(g: int, bins: seq<int>, bars: seq<real>,
                       poissonLoss: (int, seq<int>, seq<real>) -> real): Result<real, NoiseError>
  {
    if TwoReBins(bins, g) then Success(poissonLoss(g, bins, bars)) else Failure(IndexError)
  }

  /** The photon counts at unit gain that `estimate_gain` histograms. */
  function UnitCounts(noise: seq<real>): (c: seq<int>)
    ensures |c| == |noise|
    ensures forall i :: 0 <= i < |noise| ==> c[i] == PhotonValue(noise[i], 1.0) >= 0
  {
    seq(|noise|, i requires 0 <= i < |noise| => PhotonValue(noise[i], 1.0))
  }

  /** `estimate_gain(noise_data, offset, distribution, lims)`. The photon
      count at unit gain is histogrammed first; 'gp' returns the optimiser's
      answer `gpGain`, 'p' the int gain of `range(*lims)` with the smallest
      Poisson loss (the first one on ties), anything else raises. The list
      comprehension calls `loss_poisson` on every gain, so one gain whose
      re-binning collapses aborts the estimate. */
  function EstimateGain(noise: seq<real>, distribution: string, lims: (int, int),
                        poissonLoss: (int, seq<int>, seq<real>) -> real, gpGain: real): Result<Gain, NoiseError>
  {
    match Hist(UnitCounts(noise))
    case Failure(e) => Failure(e)
    case Success((bins, bars)) =>
      if distribution == "gp" then Success(FloatGain(gpGain))
      else if distribution == "p" then
        var gains := Candidates(lims.0, lims.1);
        if exists k :: 0 <= k < |gains| && LossPoisson(gains[k], bins, bars, poissonLoss).Failure? then
          Failure(IndexError)
        else if |gains| == 0 then Failure(ValueError)
        else
          var losses := seq(|gains|, k requires 0 <= k < |gains| => poissonLoss(gains[k], bins, bars));
          Success(IntGain(gains[ArgMin(losses)]))
      else Failure(UnboundLocalError)
  }

  /** With 'p' the estimate succeeds exactly when the range of gains is
      non-empty and every gain in it keeps two re-binned values; it fails with
      ValueError on an empty range and IndexError otherwise. The gain is then an
      int of [lims.0, lims.1) whose loss is the smallest, and every candidate
      before it has a larger loss. */
  lemma EstimateGainPoisson(noise: seq<real>, lims: (int, int),
                            poissonLoss: (int, seq<int>, seq<real>) -> real, gpGain: real)
    requires |noise| > 0
    ensures var r := EstimateGain(noise, "p", lims, poissonLoss, gpGain);
            var bins := Hist(UnitCounts(noise)).value.0;
            (r.Success? <==> lims.0 < lims.1 && forall g :: lims.0 <= g < lims.1 ==> TwoReBins(bins, g)) &&
            (r.Failure? ==> r.error == (if lims.0 < lims.1 then IndexError else ValueError))
    ensures var r := EstimateGain(noise, "p", lims, poissonLoss, gpGain);
            r.Success? ==>
              var (bins, bars) := Hist(UnitCounts(noise)).value;
              r.value.IntGain? && PoissonGain(r.value).Success? &&
              lims.0 <= r.value.g < lims.1 &&
              (forall h :: lims.0 <= h < lims.1 ==> poissonLoss(r.value.g, bins, bars) <= poissonLoss(h, bins, bars)) &&
              (forall h :: lims.0 <= h < r.value.g ==> poissonLoss(r.value.g, bins, bars) < poissonLoss(h, bins, bars))
  {
    PoissonOutcome(noise, lims, poissonLoss, gpGain);
    PoissonChoice(noise, lims, poissonLoss, gpGain);
  }

  /** When the 'p' estimate succeeds or fails, and with which error. */
  lemma PoissonOutcome(noise: seq<real>, lims: (int, int),
                       poissonLoss: (int, seq<int>, seq<real>) -> real, gpGain: real)
    requires |noise| > 0
    ensures var r := EstimateGain(noise, "p", lims, poissonLoss, gpGain);
            var bins := Hist(UnitCounts(noise)).value.0;
            (r.Success? <==> lims.0 < lims.1 && forall g :: lims.0 <= g < lims.1 ==> TwoReBins(bins, g)) &&
            (r.Failure? ==> r.error == (if lims.0 < lims.1 then IndexError else ValueError))
  {
    var (bins, bars) := Hist(UnitCounts(noise)).value;
    var gains := Candidates(lims.0, lims.1);
    if forall g :: lims.0 <= g < lims.1 ==> TwoReBins(bins, g) {
      assert !exists k :: 0 <= k < |gains| && LossPoisson(gains[k], bins, bars, poissonLoss).Failure?;
    } else {
      var g :| lims.0 <= g < lims.1 && !TwoReBins(bins, g);
      assert LossPoisson(gains[g - lims.0], bins, bars, poissonLoss).Failure?;
    }
  }

  /** A successful 'p' estimate is the first gain of least loss. */
  lemma PoissonChoice(noise: seq<real>, lims: (int, int),
                      poissonLoss: (int, seq<int>, seq<real>) -> real, gpGain: real)
    requires |noise| > 0
    ensures var r := EstimateGain(noise, "p", lims, poissonLoss, gpGain);
            r.Success? ==>
              var (bins, bars) := Hist(UnitCounts(noise)).value;
              r.value.IntGain? && PoissonGain(r.value).Success? &&
              lims.0 <= r.value.g < lims.1 &&
              (forall h :: lims.0 <= h < lims.1 ==> poissonLoss(r.value.g, bins, bars) <= poissonLoss(h, bins, bars)) &&
              (forall h :: lims.0 <= h < r.value.g ==> poissonLoss(r.value.g, bins, bars) < poissonLoss(h, bins, bars))
  {
    var (bins, bars) := Hist(UnitCounts(noise)).value;
    var gains := Candidates(lims.0, lims.1);
    if |gains| > 0 {
      var losses := seq(|gains|, k requires 0 <= k < |gains| => poissonLoss(gains[k], bins, bars));
      var a := ArgMin(losses);
      forall h | lims.0 <= h < lims.1
        ensures poissonLoss(gains[a], bins, bars) <= poissonLoss(h, bins, bars)
      {
        assert losses[h - lims.0] == poissonLoss(h, bins, bars);
      }
      forall h | lims.0 <= h < gains[a]
        ensures poissonLoss(gains[a], bins, bars) < poissonLoss(h, bins, bars)
      {
        assert losses[h - lims.0] == poissonLoss(h, bins, bars);
      }
    }
  }

  /** The smallest unit-gain count is never negative. */
  lemma MinCountNonNegative(noise: seq<real>)
    requires |noise| > 0
    ensures Min(UnitCounts(noise)) >= 0
  {
    MinMaxAttained(UnitCounts(noise));
  }

  /** Noise whose largest count does not exceed some positive gain of the
      range puts every bin below that gain: the re-binning collapses to 0 and
      the estimate raises IndexError. */
  lemma NarrowNoiseRaises(noise: seq<real>, lims: (int, int), g: int,
                          poissonLoss: (int, seq<int>, seq<real>) -> real, gpGain: real)
    requires |noise| > 0 && 1 <= g && lims.0 <= g < lims.1
    requires Max(UnitCounts(noise)) <= g
    ensures EstimateGain(noise, "p", lims, poissonLoss, gpGain) == Failure(IndexError)
  {
    var c := UnitCounts(noise);
    var bins := Hist(c).value.0;
    MinCountNonNegative(noise);
    forall j | 0 <= j < |bins|
      ensures 0 <= bins[j] < g
    {
      assert bins[j] == Min(c) + j && j < Max(c) - Min(c);
    }
    CollapsedReBins(bins, g);
    EstimateGainPoisson(noise, lims, poissonLoss, gpGain);
  }

  /** Bins in [0, g) all re-bin to 0. */
  lemma CollapsedReBins(bins: seq<int>, g: int)
    requires g >= 1 && forall j :: 0 <= j < |bins| ==> 0 <= bins[j] < g
    ensures !TwoReBins(bins, g)
  {
    forall j | 0 <= j < |bins|
      ensures ReBin(bins[j], g) == 0
    {
      DivBelowOne(bins[j] as real, g as real);
    }
  }

  lemma DivBelowOne(b: real, g: real)
    requires 0.0 <= b < g
    ensures 0.0 <= b / g < 1.0
  {
    assert (b / g) * g == b;
  }

  /** Noise whose counts span at least lims.1 values keeps two re-binned values
      for every positive gain of the range, so the estimate succeeds. */
  lemma WideNoiseSucceeds(noise: seq<real>, lims: (int, int),
                          poissonLoss: (int, seq<int>, seq<real>) -> real, gpGain: real)
    requires |noise| > 0 && 1 <= lims.0 < lims.1
    requires Max(UnitCounts(noise)) - Min(UnitCounts(noise)) >= lims.1
    ensures EstimateGain(noise, "p", lims, poissonLoss, gpGain).Success?
  {
    var bins := Hist(UnitCounts(noise)).value.0;
    MinCountNonNegative(noise);
    forall g | lims.0 <= g < lims.1
      ensures TwoReBins(bins, g)
    {
      var c := UnitCounts(noise);
      assert bins[0] == Min(c) && bins[g] == Min(c) + g;
      var lo := bins[0] as real / g as real;
      DivAddOne(bins[0] as real, g as real);
      TruncStep(lo);
      assert ReBin(bins[0], g) != ReBin(bins[g], g);
    }
    EstimateGainPoisson(noise, lims, poissonLoss, gpGain);
  }

  lemma DivAddOne(m: real, g: real)
    requires g != 0.0
    ensures (m + g) / g == m / g + 1.0
  {
    assert (m + g) / g == m / g + g / g;
  }

  /** Adding one to a non-negative value adds one to its truncation. */
  lemma TruncStep(x: real)
    requires x >= 0.0
    ensures Trunc(x + 1.0) == Trunc(x) + 1
  {
  }

  /** A distribution other than 'p' and 'gp' never yields a gain, and an
      empty image fails before the distribution is looked at. */
  lemma EstimateGainOther(noise: seq<real>, distribution: string, lims: (int, int),
                          poissonLoss: (int, seq<int>, seq<real>) -> real, gpGain: real)
    requires distribution != "p" && distribution != "gp"
    ensures EstimateGain(noise, distribution, lims, poissonLoss, gpGain).Failure?
    ensures |noise| > 0 ==> EstimateGain(noise, distribution, lims, poissonLoss, gpGain) == Failure(UnboundLocalError)
    ensures EstimateGain([], "p", lims, poissonLoss, gpGain) == Failure(ValueError)
  {
  }
}
