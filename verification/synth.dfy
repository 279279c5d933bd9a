/**
 * The 8-bit sound-effect synthesiser: a square-wave oscillator, a beep with a
 * linear fade at both ends, arpeggios of beeps, a frequency sweep under an
 * exponential decay, and the double-beep warning composite.
 */
module Synth {
  import opened Wrappers
  import opened Numeric
  import opened Signal

  /** The module-wide default sample rate, in samples per second. */
  const SampleRate: nat := 44100

  /** Length of the linear fade at each end of a beep, in seconds (10 ms). */
  const FadeSeconds: real := 0.01

  /** Rate of the sweep's exponential decay: its gain falls to exp(-DecayRate) at the end. */
  const DecayRate: real := 3.0

  /** What numpy raises instead of returning a buffer. */
  datatype SynthError =
    | NegativeSampleCount(count: int)  // numpy.linspace refuses a negative number of samples
    | FadeShapeMismatch(length: nat)   // `envelope[-0:]` selects the whole buffer and an empty ramp cannot fill it
    | NothingToConcatenate             // numpy.concatenate of an empty list

  /** `int(sample_rate * duration)`: the number of samples in a buffer of `duration` seconds. */
  function SampleCount(sampleRate: nat, duration: real): (n: int)
    ensures n > 0 ==> sampleRate > 0 && duration > 0.0
  {
    var n := Trunc(sampleRate as real * duration);
    PositiveProduct(sampleRate as real, duration);
    n
  }

  /**
   * The sample count is the product truncated toward zero: its floor for a
   * non-negative duration, 0 strictly between -1 and 1, and negative exactly
   * when the product reaches -1.
   */
  lemma SampleCountBounds(sampleRate: nat, duration: real)
    ensures SampleCount(sampleRate, duration) >= 0 <==> sampleRate as real * duration > -1.0
    ensures duration >= 0.0 ==>
              SampleCount(sampleRate, duration) as real <= sampleRate as real * duration < SampleCount(sampleRate, duration) as real + 1.0
    ensures -1.0 < sampleRate as real * duration < 1.0 ==> SampleCount(sampleRate, duration) == 0
  {
  }

  /** A product of a non-negative factor that reaches 1 has two positive factors. */
  lemma PositiveProduct(a: real, b: real)
    ensures a >= 0.0 && a * b >= 1.0 ==> a > 0.0 && b > 0.0
  {
    if a >= 0.0 && b <= 0.0 {
      assert a * (-b) >= 0.0;
    }
  }

  /** `int(sample_rate * 0.01)`: the number of samples in each fade of a beep. */
  function FadeSamples(sampleRate: nat): (f: nat)
    ensures f as real <= sampleRate as real * FadeSeconds < f as real + 1.0
    ensures sampleRate == SampleRate ==> f == 441
  {
    Trunc(sampleRate as real * FadeSeconds)
  }

  /**
   * The square wave `volume * sign(sin(phase))` over a sequence of phases: every
   * sample is -volume, 0 or volume, and it is 0 exactly where the sine is 0 (or
   * the volume is).
   */
  function SquareWave(m: Transcendental, phases: seq<real>, volume: real): (w: seq<real>)
    ensures |w| == |phases|
    ensures forall k :: 0 <= k < |w| ==> w[k] == -volume || w[k] == 0.0 || w[k] == volume
    ensures forall k :: 0 <= k < |w| ==> (w[k] == 0.0 <==> volume == 0.0 || m.sin(phases[k]) == 0.0)
    ensures volume > 0.0 ==> forall k :: 0 <= k < |w| ==> (w[k] > 0.0 <==> m.sin(phases[k]) > 0.0)
  {
    seq(|phases|, k requires 0 <= k < |phases| => volume * Sign(m.sin(phases[k])))
  }

  /** The phases generate_tone hands to sin over the time grid t: `2 * pi * frequency * t`. */
  function TonePhases(frequency: real, t: seq<real>): (p: seq<real>)
    ensures |p| == |t|
    ensures |t| > 0 && t[0] == 0.0 ==> p[0] == 0.0
  {
    seq(|t|, k requires 0 <= k < |t| => 2.0 * Pi * frequency * t[k])
  }

  /** generate_tone: an unshaped square wave of `duration` seconds. */
  function Tone(m: Transcendental, frequency: real, duration: real, sampleRate: nat, volume: real): (r: Result<seq<real>, SynthError>)
    ensures r.Failure? <==> SampleCount(sampleRate, duration) < 0
    ensures r.Failure? ==> r.error == NegativeSampleCount(SampleCount(sampleRate, duration))
    ensures r.Success? ==> |r.value| == SampleCount(sampleRate, duration)
    ensures r.Success? ==> forall k :: 0 <= k < |r.value| ==> Abs(r.value[k]) <= Abs(volume)
    ensures r.Success? && |r.value| > 0 && m.Valid() ==> r.value[0] == 0.0
  {
    var n := SampleCount(sampleRate, duration);
    if n < 0 then Failure(NegativeSampleCount(n))
    else Success(SquareWave(m, TonePhases(frequency, Linspace(0.0, duration, n)), volume))
  }

  /**
   * Every sample of a tone is -volume, 0 or volume; it is 0 exactly where the
   * sine of its phase is 0 (or the volume is), and for a positive volume it is
   * positive exactly where that sine is.
   */
  lemma ToneLevels(m: Transcendental, frequency: real, duration: real, sampleRate: nat, volume: real)
    requires Tone(m, frequency, duration, sampleRate, volume).Success?
    ensures forall k :: 0 <= k < |Tone(m, frequency, duration, sampleRate, volume).value| ==>
              var r := Tone(m, frequency, duration, sampleRate, volume).value;
              r[k] == -volume || r[k] == 0.0 || r[k] == volume
    ensures forall k :: 0 <= k < |Tone(m, frequency, duration, sampleRate, volume).value| ==>
              var r := Tone(m, frequency, duration, sampleRate, volume).value;
              (r[k] == 0.0 <==> volume == 0.0 || m.sin(TonePhases(frequency, Linspace(0.0, duration, |r|))[k]) == 0.0)
    ensures volume > 0.0 ==> forall k :: 0 <= k < |Tone(m, frequency, duration, sampleRate, volume).value| ==>
              var r := Tone(m, frequency, duration, sampleRate, volume).value;
              (r[k] > 0.0 <==> m.sin(TonePhases(frequency, Linspace(0.0, duration, |r|))[k]) > 0.0)
  {
  }

  /**
   * The gain curve of generate_beep for a buffer of n samples: all ones, except
   * that when n > 2 * fadeSamples the first fadeSamples gains ramp from 0 up to 1
   * and the last fadeSamples ramp from 1 down to 0.
   */
  function FadeEnvelope(n: nat, fadeSamples: nat): (r: Result<seq<real>, SynthError>)
    ensures r.Failure? <==> fadeSamples == 0 && n > 0
    ensures r.Success? ==> |r.value| == n
    ensures r.Success? ==> forall k :: 0 <= k < n ==> 0.0 <= r.value[k] <= 1.0
    ensures r.Success? && n <= 2 * fadeSamples ==> forall k :: 0 <= k < n ==> r.value[k] == 1.0
    ensures r.Success? && n > 2 * fadeSamples ==>
              forall k :: fadeSamples <= k < n - fadeSamples ==> r.value[k] == 1.0
    ensures r.Success? && n > 2 * fadeSamples ==> r.value[0] == 0.0
    ensures r.Success? && n > 2 * fadeSamples && fadeSamples >= 2 ==> r.value[n - 1] == 0.0
  {
    if n > 2 * fadeSamples then
      if fadeSamples == 0 then Failure(FadeShapeMismatch(n))
      else
        var up := Linspace(0.0, 1.0, fadeSamples);
        var down := Linspace(1.0, 0.0, fadeSamples);
        LinspaceBetween(0.0, 1.0, fadeSamples);
        LinspaceBetween(1.0, 0.0, fadeSamples);
        Success(seq(n, k requires 0 <= k < n =>
          if k < fadeSamples then up[k]
          else if k >= n - fadeSamples then down[k - (n - fadeSamples)]
          else 1.0))
    else
      Success(seq(n, _ => 1.0))
  }

  /** generate_beep: the square wave of generate_tone multiplied by the fade envelope. */
  function Beep(m: Transcendental, frequency: real, duration: real, sampleRate: nat, volume: real): (r: Result<seq<real>, SynthError>)
    ensures r.Failure? <==>
              SampleCount(sampleRate, duration) < 0
              || (FadeSamples(sampleRate) == 0 && SampleCount(sampleRate, duration) > 0)
    ensures r.Success? ==> |r.value| == SampleCount(sampleRate, duration)
    ensures r.Success? ==> forall k :: 0 <= k < |r.value| ==> Abs(r.value[k]) <= Abs(volume)
  {
    var wave :- Tone(m, frequency, duration, sampleRate, volume);
    var envelope :- FadeEnvelope(|wave|, FadeSamples(sampleRate));
    MulBounded(wave, envelope, Abs(volume));
    Success(Mul(wave, envelope))
  }

  /** A beep too short for its two fades is the plain square wave of generate_tone. */
  lemma BeepUnshapedWhenShort(m: Transcendental, frequency: real, duration: real, sampleRate: nat, volume: real)
    requires 0 <= SampleCount(sampleRate, duration) <= 2 * FadeSamples(sampleRate)
    ensures Beep(m, frequency, duration, sampleRate, volume) == Tone(m, frequency, duration, sampleRate, volume)
  {
    var wave := Tone(m, frequency, duration, sampleRate, volume).value;
    var envelope := FadeEnvelope(|wave|, FadeSamples(sampleRate)).value;
    assert Mul(wave, envelope) == wave;
  }

  /** A beep that numpy accepts is its tone multiplied, sample by sample, by its fade envelope. */
  lemma BeepIsFadedTone(m: Transcendental, frequency: real, duration: real, sampleRate: nat, volume: real)
    requires Beep(m, frequency, duration, sampleRate, volume).Success?
    ensures Tone(m, frequency, duration, sampleRate, volume).Success?
    ensures FadeEnvelope(SampleCount(sampleRate, duration), FadeSamples(sampleRate)).Success?
    ensures Beep(m, frequency, duration, sampleRate, volume).value ==
              Mul(Tone(m, frequency, duration, sampleRate, volume).value,
                  FadeEnvelope(SampleCount(sampleRate, duration), FadeSamples(sampleRate)).value)
  {
  }

  /** Between the two fades a beep is the square wave of generate_tone, sample for sample. */
  lemma BeepMiddleIsTone(m: Transcendental, frequency: real, duration: real, sampleRate: nat, volume: real)
    requires Beep(m, frequency, duration, sampleRate, volume).Success?
    ensures Tone(m, frequency, duration, sampleRate, volume).Success?
    ensures forall k :: FadeSamples(sampleRate) <= k < SampleCount(sampleRate, duration) - FadeSamples(sampleRate) ==>
              Beep(m, frequency, duration, sampleRate, volume).value[k] == Tone(m, frequency, duration, sampleRate, volume).value[k]
  {
    BeepIsFadedTone(m, frequency, duration, sampleRate, volume);
    var n := SampleCount(sampleRate, duration);
    var f := FadeSamples(sampleRate);
    var wave := Tone(m, frequency, duration, sampleRate, volume).value;
    var envelope := FadeEnvelope(n, f).value;
    MulUnitWhere(wave, envelope, f, n - f);
  }

  /** A beep starts silent: sin(0) == 0, so its first square-wave sample is already 0. */
  lemma BeepStartsSilent(m: Transcendental, frequency: real, duration: real, sampleRate: nat, volume: real)
    requires m.Valid()
    requires Beep(m, frequency, duration, sampleRate, volume).Success?
    requires SampleCount(sampleRate, duration) > 0
    ensures Beep(m, frequency, duration, sampleRate, volume).value[0] == 0.0
  {
    BeepIsFadedTone(m, frequency, duration, sampleRate, volume);
    var n := SampleCount(sampleRate, duration);
    var wave := Tone(m, frequency, duration, sampleRate, volume).value;
    var envelope := FadeEnvelope(n, FadeSamples(sampleRate)).value;
    assert wave[0] == 0.0;
    MulAt(wave, envelope, 0);
    assert Mul(wave, envelope)[0] == 0.0;
  }

  /**
   * A faded beep whose fades span at least two samples ends silent. (A
   * one-sample fade-out is the gain [1], which leaves the last sample as it is.)
   */
  lemma BeepEndsSilent(m: Transcendental, frequency: real, duration: real, sampleRate: nat, volume: real)
    requires Beep(m, frequency, duration, sampleRate, volume).Success?
    requires SampleCount(sampleRate, duration) > 2 * FadeSamples(sampleRate)
    requires FadeSamples(sampleRate) >= 2
    ensures Beep(m, frequency, duration, sampleRate, volume).value[SampleCount(sampleRate, duration) - 1] == 0.0
  {
    BeepIsFadedTone(m, frequency, duration, sampleRate, volume);
    var n := SampleCount(sampleRate, duration);
    var wave := Tone(m, frequency, duration, sampleRate, volume).value;
    var envelope := FadeEnvelope(n, FadeSamples(sampleRate)).value;
    assert envelope[n - 1] == 0.0;
    MulAt(wave, envelope, n - 1);
  }

  /**
   * With fades of at least two samples the envelope is symmetric: the fade-out
   * mirrors the fade-in, and fade-in gain k is k / (fadeSamples - 1).
   */
  lemma FadeEnvelopeSymmetric(n: nat, fadeSamples: nat)
    requires n > 2 * fadeSamples
    requires fadeSamples >= 2
    ensures FadeEnvelope(n, fadeSamples).Success?
    ensures forall k :: 0 <= k < fadeSamples ==>
              FadeEnvelope(n, fadeSamples).value[k] == (k as real) / ((fadeSamples - 1) as real)
    ensures forall k :: 0 <= k < n ==>
              FadeEnvelope(n, fadeSamples).value[k] == FadeEnvelope(n, fadeSamples).value[n - 1 - k]
  {
    var e := FadeEnvelope(n, fadeSamples).value;
    var up := Linspace(0.0, 1.0, fadeSamples);
    var down := Linspace(1.0, 0.0, fadeSamples);
    LinspaceUnit(fadeSamples);
    LinspaceReversed(0.0, 1.0, fadeSamples);
    forall k | 0 <= k < n
      ensures e[k] == e[n - 1 - k]
    {
      if k < fadeSamples {
        assert e[n - 1 - k] == down[fadeSamples - 1 - k];
      } else if k >= n - fadeSamples {
        assert e[k] == down[fadeSamples - 1 - (n - 1 - k)];
      }
    }
  }

  /** Whether numpy refuses a beep of `duration` seconds; the frequency and volume play no part. */
  predicate BeepRefused(duration: real, sampleRate: nat)
  {
    SampleCount(sampleRate, duration) < 0 || (FadeSamples(sampleRate) == 0 && SampleCount(sampleRate, duration) > 0)
  }

  /** The notes of an arpeggio: the beep of each frequency, in list order. */
  function Notes(m: Transcendental, frequencies: seq<real>, noteDuration: real, sampleRate: nat, volume: real): (notes: seq<seq<real>>)
    requires !BeepRefused(noteDuration, sampleRate)
    ensures |notes| == |frequencies|
    ensures forall i :: 0 <= i < |frequencies| ==>
              Beep(m, frequencies[i], noteDuration, sampleRate, volume) == Success(notes[i])
    ensures forall i :: 0 <= i < |frequencies| ==> |notes[i]| == SampleCount(sampleRate, noteDuration)
  {
    seq(|frequencies|, i requires 0 <= i < |frequencies| => Beep(m, frequencies[i], noteDuration, sampleRate, volume).value)
  }

  /**
   * generate_arpeggio: one beep per frequency, concatenated in list order. The
   * beeps are computed first, so a refused beep raises before the empty list
   * reaches numpy.concatenate.
   */
  function Arpeggio(m: Transcendental, frequencies: seq<real>, noteDuration: real, sampleRate: nat, volume: real): (r: Result<seq<real>, SynthError>)
    ensures r.Failure? <==> |frequencies| == 0 || BeepRefused(noteDuration, sampleRate)
    ensures |frequencies| == 0 ==> r == Failure(NothingToConcatenate)
    ensures |frequencies| > 0 && BeepRefused(noteDuration, sampleRate) ==>
              r == Beep(m, frequencies[0], noteDuration, sampleRate, volume)
    ensures r.Success? ==> |r.value| == |frequencies| * SampleCount(sampleRate, noteDuration)
  {
    if |frequencies| == 0 then Failure(NothingToConcatenate)
    else if BeepRefused(noteDuration, sampleRate) then Beep(m, frequencies[0], noteDuration, sampleRate, volume)
    else
      var notes := Notes(m, frequencies, noteDuration, sampleRate, volume);
      ConcatUniformLength(notes, SampleCount(sampleRate, noteDuration));
      Success(Concat(notes))
  }

  /**
   * Note i of an arpeggio whose notes last n samples is the beep of
   * frequencies[i], and it occupies the samples [i*n, (i+1)*n).
   */
  lemma ArpeggioNote(m: Transcendental, frequencies: seq<real>, noteDuration: real, sampleRate: nat, volume: real, n: nat, i: nat)
    requires Arpeggio(m, frequencies, noteDuration, sampleRate, volume).Success?
    requires n == SampleCount(sampleRate, noteDuration)
    requires i < |frequencies|
    ensures Beep(m, frequencies[i], noteDuration, sampleRate, volume).Success?
    ensures Occupies(Arpeggio(m, frequencies, noteDuration, sampleRate, volume).value,
                     Beep(m, frequencies[i], noteDuration, sampleRate, volume).value, i * n)
  {
    var notes := Notes(m, frequencies, noteDuration, sampleRate, volume);
    var a := Arpeggio(m, frequencies, noteDuration, sampleRate, volume).value;
    assert a == Concat(notes);
    ConcatUniformSegment(notes, n, i);
  }

  /**
   * The phase generate_sweep hands to sin: 2*pi times the running sum of the
   * instantaneous frequencies, divided by the sample rate. It accumulates
   * rather than being recomputed from absolute time.
   */
  function SweepPhases(freq: seq<real>, sampleRate: nat): (p: seq<real>)
    requires |freq| > 0 ==> sampleRate > 0
    ensures |p| == |freq|
    ensures |freq| > 0 ==> p[0] == 2.0 * Pi * freq[0] / sampleRate as real
    ensures forall k {:trigger freq[k]} :: 0 < k < |freq| ==> p[k] == p[k - 1] + 2.0 * Pi * freq[k] / sampleRate as real
  {
    var c := CumSum(freq);
    var p := seq(|freq|, k requires 0 <= k < |freq| => 2.0 * Pi * c[k] / sampleRate as real);
    ScaledRunningSum(c, freq, p, sampleRate as real);
    p
  }

  /** Scaling a running total by 2*pi / rate scales each of its increments the same way. */
  lemma ScaledRunningSum(c: seq<real>, s: seq<real>, p: seq<real>, rate: real)
    requires |c| == |s| == |p|
    requires |s| > 0 ==> rate != 0.0
    requires forall k {:trigger s[k]} :: 0 < k < |s| ==> c[k] == c[k - 1] + s[k]
    requires forall k :: 0 <= k < |p| ==> p[k] == 2.0 * Pi * c[k] / rate
    ensures forall k {:trigger s[k]} :: 0 < k < |s| ==> p[k] == p[k - 1] + 2.0 * Pi * s[k] / rate
  {
    forall k | 0 < k < |s|
      ensures p[k] == p[k - 1] + 2.0 * Pi * s[k] / rate
    {
      assert 2.0 * Pi * c[k] == 2.0 * Pi * c[k - 1] + 2.0 * Pi * s[k];
    }
  }

  /** Sweep phase k is 2*pi times the sum of the first k + 1 frequencies, over the sample rate. */
  lemma SweepPhaseIsPrefixSum(freq: seq<real>, sampleRate: nat, k: nat)
    requires sampleRate > 0
    requires k < |freq|
    ensures SweepPhases(freq, sampleRate)[k] == 2.0 * Pi * Sum(freq[..k + 1]) / sampleRate as real
  {
    CumSumIsPrefixSum(freq, k);
  }

  /** The exponent of the decay gain at time t: `-3 * t / duration`. */
  function DecayExponent(t: real, duration: real): real
    requires duration > 0.0
  {
    -DecayRate * t / duration
  }

  /** The decay gain `exp(-3 * t / duration)` over an n-point time grid from 0 to duration. */
  function DecayEnvelope(m: Transcendental, duration: real, n: nat): (g: seq<real>)
    requires n > 0 ==> duration > 0.0
    ensures |g| == n
  {
    var t := Linspace(0.0, duration, n);
    seq(n, k requires 0 <= k < n => m.exp(DecayExponent(t[k], duration)))
  }

  /** The decay gain is 1 at the first sample and exp(-3) at the last, where t = duration. */
  lemma DecayEnvelopeEnds(m: Transcendental, duration: real, n: nat)
    requires m.Valid()
    requires n > 0 ==> duration > 0.0
    ensures n > 0 ==> DecayEnvelope(m, duration, n)[0] == 1.0
    ensures n >= 2 ==> DecayEnvelope(m, duration, n)[n - 1] == m.exp(-DecayRate)
  {
    if n > 0 {
      assert DecayExponent(0.0, duration) == 0.0;
      assert DecayExponent(duration, duration) == -DecayRate;
    }
  }

  /** Every decay gain lies in (0, 1]. */
  lemma DecayEnvelopeBounded(m: Transcendental, duration: real, n: nat)
    requires m.Valid()
    requires n > 0 ==> duration > 0.0
    ensures forall k :: 0 <= k < n ==> 0.0 < DecayEnvelope(m, duration, n)[k] <= 1.0
  {
    var g := DecayEnvelope(m, duration, n);
    var t := Linspace(0.0, duration, n);
    LinspaceBetween(0.0, duration, n);
    forall k | 0 <= k < n
      ensures 0.0 < g[k] <= 1.0
    {
      assert 0.0 <= t[k];
      assert DecayExponent(t[k], duration) <= 0.0;
      ExpOfNonPositive(m, DecayExponent(t[k], duration));
    }
  }

  /** The decay gain falls strictly from every sample to every later one. */
  lemma DecayEnvelopeDecreasing(m: Transcendental, duration: real, n: nat)
    requires m.Valid()
    requires n > 0 ==> duration > 0.0
    ensures forall i, j :: 0 <= i < j < n ==> DecayEnvelope(m, duration, n)[j] < DecayEnvelope(m, duration, n)[i]
  {
    if n > 0 {
      var g := DecayEnvelope(m, duration, n);
      var t := Linspace(0.0, duration, n);
      LinspaceIncreasing(0.0, duration, n);
      forall i, j | 0 <= i < j < n
        ensures g[j] < g[i]
      {
        DecayExponentDecreasing(t[i], t[j], duration);
      }
    }
  }

  /** A later time has a more negative decay exponent. */
  lemma DecayExponentDecreasing(s: real, t: real, duration: real)
    requires duration > 0.0
    requires s < t
    ensures DecayExponent(t, duration) < DecayExponent(s, duration)
  {
    assert DecayExponent(s, duration) - DecayExponent(t, duration) == DecayRate * ((t - s) / duration);
  }

  /**
   * generate_sweep: a square wave over the accumulated sweep phase, scaled by
   * the decay gain. Sample k is 0 or plus or minus volume times gain k.
   */
  function Sweep(m: Transcendental, startFreq: real, endFreq: real, duration: real, sampleRate: nat, volume: real): (r: Result<seq<real>, SynthError>)
    ensures r.Failure? <==> SampleCount(sampleRate, duration) < 0
    ensures r.Failure? ==> r.error == NegativeSampleCount(SampleCount(sampleRate, duration))
    ensures r.Success? ==> |r.value| == SampleCount(sampleRate, duration)
    ensures r.Success? ==> ScaledThreeLevel(r.value, DecayEnvelope(m, duration, |r.value|), volume)
  {
    var n := SampleCount(sampleRate, duration);
    if n < 0 then Failure(NegativeSampleCount(n))
    else
      var freq := Linspace(startFreq, endFreq, n);
      var wave := SquareWave(m, SweepPhases(freq, sampleRate), volume);
      var envelope := DecayEnvelope(m, duration, n);
      MulThreeLevel(wave, envelope, volume);
      Success(Mul(wave, envelope))
  }

  /** Every sweep sample lies within the volume, since the decay gain never exceeds 1. */
  lemma SweepBounded(m: Transcendental, startFreq: real, endFreq: real, duration: real, sampleRate: nat, volume: real)
    requires m.Valid()
    requires Sweep(m, startFreq, endFreq, duration, sampleRate, volume).Success?
    ensures forall k :: 0 <= k < |Sweep(m, startFreq, endFreq, duration, sampleRate, volume).value| ==>
              Abs(Sweep(m, startFreq, endFreq, duration, sampleRate, volume).value[k]) <= Abs(volume)
  {
    var r := Sweep(m, startFreq, endFreq, duration, sampleRate, volume).value;
    DecayEnvelopeBounded(m, duration, |r|);
    ScaledThreeLevelBounded(r, DecayEnvelope(m, duration, |r|), volume);
  }

  /**
   * Where the decay gain is positive, a sweep sample is silent exactly where
   * the sine of the accumulated phase is 0 (or the volume is).
   */
  lemma SweepSilentWhere(m: Transcendental, startFreq: real, endFreq: real, duration: real, sampleRate: nat, volume: real)
    requires m.Valid()
    requires Sweep(m, startFreq, endFreq, duration, sampleRate, volume).Success?
    ensures forall k :: 0 <= k < SampleCount(sampleRate, duration) ==>
              (Sweep(m, startFreq, endFreq, duration, sampleRate, volume).value[k] == 0.0 <==>
                volume == 0.0
                || m.sin(SweepPhases(Linspace(startFreq, endFreq, SampleCount(sampleRate, duration)), sampleRate)[k]) == 0.0)
  {
    var n := SampleCount(sampleRate, duration);
    var r := Sweep(m, startFreq, endFreq, duration, sampleRate, volume).value;
    var phase := SweepPhases(Linspace(startFreq, endFreq, n), sampleRate);
    var wave := SquareWave(m, phase, volume);
    var g := DecayEnvelope(m, duration, n);
    DecayEnvelopeBounded(m, duration, n);
    assert r == Mul(wave, g);
    MulPositiveKeepsZeros(wave, g);
  }

  /**
   * The high-stack warning of the sound catalogue, built with numpy.concatenate:
   * a 100 ms beep at 880 Hz, 50 ms of silence, and the same beep again, at the
   * default sample rate: 4410 + 2205 + 4410 samples.
   */
  function WarningHighStack(m: Transcendental): (r: seq<real>)
    ensures |r| == 2 * SampleCount(SampleRate, 0.1) + SampleCount(SampleRate, 0.05) == 11025
    ensures Beep(m, 880.0, 0.1, SampleRate, 0.25) == Success(r[..4410])
    ensures forall k :: 4410 <= k < 6615 ==> r[k] == 0.0
    ensures r[6615..] == r[..4410]
  {
    assert SampleCount(SampleRate, 0.1) == 4410;
    assert SampleCount(SampleRate, 0.05) == 2205;
    assert FadeSamples(SampleRate) == 441;
    var beep := Beep(m, 880.0, 0.1, SampleRate, 0.25).value;
    var gap := Zeros(SampleCount(SampleRate, 0.05));
    var r := beep + gap + beep;
    assert r[..4410] == beep;
    assert r[6615..] == beep;
    r
  }

  /**
   * The single-line-clear sound of the catalogue, an arpeggio of C (523 Hz) and
   * E (659 Hz) at 80 ms a note: 7056 samples, with the E starting at sample 3528.
   */
  lemma LineClearSingleLayout(m: Transcendental)
    ensures Arpeggio(m, [523.0, 659.0], 0.08, SampleRate, 0.3).Success?
    ensures |Arpeggio(m, [523.0, 659.0], 0.08, SampleRate, 0.3).value| == 7056
    ensures Beep(m, 659.0, 0.08, SampleRate, 0.3) == Success(Arpeggio(m, [523.0, 659.0], 0.08, SampleRate, 0.3).value[3528..])
  {
    assert SampleCount(SampleRate, 0.08) == 3528;
    assert FadeSamples(SampleRate) == 441;
    ArpeggioNote(m, [523.0, 659.0], 0.08, SampleRate, 0.3, 3528, 1);
    var a := Arpeggio(m, [523.0, 659.0], 0.08, SampleRate, 0.3).value;
    var e := Beep(m, 659.0, 0.08, SampleRate, 0.3).value;
    assert a[3528 .. 3528 + |e|] == e;
    assert a[3528..] == e;
  }
}
