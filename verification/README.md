# 8-bit sound-effect synthesiser — Dafny model

This project models the procedural sound-effect generator of the Tetris Battle
audio tooling (`generate_simple_sfx.py`) and the audio-id lookup of
`generate_single_audio.py`, and proves properties of the model.

The synthesiser is a chain of pure array operations over a sample buffer:

- `generate_tone`: a square wave `volume * sign(sin(2*pi*f*t))` over a `linspace` time grid.
- `generate_beep`: the same square wave times a 10 ms linear fade-in and fade-out.
  The fade is skipped when the buffer has at most `2 * fade_samples` samples.
- `generate_arpeggio`: beeps concatenated in list order.
- `generate_sweep`: a square wave whose phase is the running sum of a linearly
  interpolated frequency array divided by the sample rate. It is scaled by the
  decay `exp(-3 t / duration)`.
- `save_wav` (sample conversion only): clip to [-1, 1], then `int16(x * 32767)`.
- The high-stack warning: beep, 50 ms of silence, the same beep.

`find_audio_spec` looks an id up among the music tracks first and the sound
effects second, taking the first match in each list.

## How the model is built

- Buffers are `seq<real>`. Samples are exact reals, not IEEE doubles.
- The sine and the exponential are the two fields of `Numeric.Transcendental`.
  These are function values, and nothing is assumed about them except the
  predicate `Valid()`:
  - `sin(0) == 0`
  - `exp(0) == 1`
  - `exp` is positive everywhere
  - `exp` is strictly increasing

  Every property that needs them says `m.Valid()` explicitly, so the
  results hold for any such pair, including the real functions.
- numpy's raised errors are `Result` failures (`Synth.SynthError`):
  - `NegativeSampleCount`: `linspace` refuses a negative sample count. This
    happens when `sample_rate * duration <= -1`.
  - `FadeShapeMismatch`: when `int(sample_rate * 0.01) == 0` and the buffer
    is not empty, `envelope[-0:]` selects the whole buffer. The empty ramp
    cannot be broadcast into it. This is reachable only for sample rates
    below 100; the default is 44100.
  - `NothingToConcatenate`: `np.concatenate([])` for an empty arpeggio.
- Python's `int()` and numpy's float-to-`int16` cast both truncate toward
  zero (`Numeric.Trunc`). Dafny's `.Floor` is used only on non-negative values.
- `np.linspace(a, b, n)` includes both endpoints and is `[a]` for `n == 1`.
  So a one-sample fade-out is the gain `[1]`. A beep is therefore guaranteed
  to end silent only when each fade has at least two samples.
- Lengths and PCM values truncate toward zero (`int()`, the `np.int16`
  cast); nothing is rounded.
- No parameter is validated and the volume is not clamped.
- The fade is applied only when `len > 2 * fade_samples`.
- `Pcm.Decode` is not in the source. It is the inverse scaling, used only as a
  partner for the quantiser's round-trip lemmas.

Files: `wrappers.dfy` (Option/Result), `numeric.dfy` (truncation, sign,
abstract sin/exp), `signal.dfy` (linspace, zeros, elementwise product,
concatenate, cumsum), `synth.dfy` (oscillators, envelopes, sequencing,
warning), `pcm.dfy` (clip and quantise), `audio_lookup.dfy`.

## Model

| member | source | states |
|---|---|---|
| Numeric.Trunc | generate_simple_sfx.py:16 | `int()` truncates toward zero: abs(r) <= abs(x) < abs(r) + 1, and the result keeps the sign of x |
| Numeric.Sign | generate_simple_sfx.py:18 | `np.sign` is -1, 0 or 1, is 0 exactly at 0, and sign(x) * x == abs(x) |
| Signal.Linspace | generate_simple_sfx.py:16 | n values; the first is a; for n >= 2 the last is exactly b and neighbours differ by the constant step (b - a)/(n - 1) |
| Signal.LinspaceBetween | generate_simple_sfx.py:30-31 | every linspace value lies between its endpoints (fade gains in [0, 1], times in [0, duration]) |
| Signal.LinspaceIncreasing | generate_simple_sfx.py:44 | a linspace from a lower to a higher endpoint is strictly increasing |
| Signal.Concat | generate_simple_sfx.py:40 | joining a non-empty list starts with the first part (placement of every part: ConcatUniformSegment); the `[]` for no parts is only the recursion's base case, since `np.concatenate([])` raises and Arpeggio returns `NothingToConcatenate` first |
| Signal.Zeros | generate_simple_sfx.py:125 | `np.zeros(n)` has n samples, all 0 |
| Signal.Mul | generate_simple_sfx.py:33 | `wave * envelope` keeps the common length (element k is a[k] * b[k]: MulAt; unit gains leave the wave unchanged: MulUnitWhere) |
| Signal.ConcatUniformLength | generate_simple_sfx.py:40 | concatenating parts of common length m gives (number of parts) * m samples |
| Signal.ConcatUniformSegment | generate_simple_sfx.py:40 | part i of such a concatenation occupies exactly the samples [i*m, (i+1)*m) |
| Signal.CumSum | generate_simple_sfx.py:46 | `np.cumsum` keeps the length and starts with the first value (every element: CumSumIsPrefixSum) |
| Signal.CumSumFrom | generate_simple_sfx.py:46 | cumsum is a running total: element 0 is the first value, element k adds value k to element k-1 |
| Signal.CumSumIsPrefixSum | generate_simple_sfx.py:46 | cumsum element k equals the sum of the first k+1 values |
| Synth.SampleCount | generate_simple_sfx.py:16 | a positive `int(sample_rate * duration)` implies a positive rate and a positive duration |
| Synth.SampleCountBounds | generate_simple_sfx.py:16 | `int(sample_rate * duration)` is the floor of the product for non-negative durations, 0 strictly between -1 and 1, and negative exactly when the product is <= -1 |
| Synth.FadeSamples | generate_simple_sfx.py:28 | `int(sample_rate * 0.01)` is the floor of sample_rate / 100; 441 at 44100 Hz |
| Synth.SquareWave | generate_simple_sfx.py:18 | every sample is -volume, 0 or volume; it is 0 exactly where sin is 0 (or volume is); for positive volume it is positive exactly where sin is positive |
| Synth.TonePhases | generate_simple_sfx.py:18 | `2 * np.pi * frequency * t` has one phase per time-grid point, and the phase is 0 where the grid starts at t = 0 |
| Synth.Tone | generate_simple_sfx.py:14-19 | fails exactly when the sample count is negative; otherwise has `int(sr*d)` samples of magnitude <= abs(v), and sample 0 is 0 because t[0] = 0 |
| Synth.ToneLevels | generate_simple_sfx.py:16-18 | every tone sample is -v, 0 or v; it is 0 exactly where sin(2*pi*f*t) or v is 0; for positive v it is positive exactly where sin(2*pi*f*t) is |
| Synth.FadeEnvelope | generate_simple_sfx.py:27-31 | fails exactly when the fade length is 0 on a non-empty buffer; gains in [0, 1]; all ones when len <= 2*fade; otherwise 1 in the middle, 0 at the start, 0 at the end when fade >= 2 |
| Signal.LinspaceReversed | generate_simple_sfx.py:30-31 | for n >= 2, linspace(b, a, n) is linspace(a, b, n) read backwards, so the fade-out ramp mirrors the fade-in |
| Signal.LinspaceUnit | generate_simple_sfx.py:30 | value k of linspace(0, 1, n) is k/(n - 1) |
| Synth.FadeEnvelopeSymmetric | generate_simple_sfx.py:30-31 | with fades of >= 2 samples, fade-in gain k is k/(fade-1) and the envelope is mirror-symmetric |
| Synth.Beep | generate_simple_sfx.py:21-33 | fails exactly on a negative count or an empty fade on a non-empty buffer; otherwise `int(sr*d)` samples of magnitude <= abs(volume) |
| Synth.BeepUnshapedWhenShort | generate_simple_sfx.py:27-29 | when len <= 2*fade_samples the beep equals generate_tone's output exactly |
| Synth.BeepMiddleIsTone | generate_simple_sfx.py:29-33 | samples in [fade, len - fade) equal the raw square wave |
| Synth.BeepStartsSilent | generate_simple_sfx.py:23-33 | the first sample of a non-empty beep is exactly 0 |
| Synth.BeepEndsSilent | generate_simple_sfx.py:29-33 | a faded beep with fades of >= 2 samples ends on exactly 0 |
| Synth.Notes | generate_simple_sfx.py:37-39 | one note per frequency, in list order, each the beep of that frequency, each `int(sr*d)` long |
| Synth.Arpeggio | generate_simple_sfx.py:35-40 | fails exactly on an empty list (concatenate error) or a refused beep (that beep's error); otherwise len(frequencies) * int(sr*d) samples |
| Synth.ArpeggioNote | generate_simple_sfx.py:35-40 | samples [i*n, (i+1)*n) of an arpeggio are the beep of frequencies[i] |
| Synth.SweepPhases | generate_simple_sfx.py:45-46 | phase 0 is 2*pi*f0/sr (not 0); each later phase adds 2*pi*freq[k]/sr to the previous |
| Synth.SweepPhaseIsPrefixSum | generate_simple_sfx.py:46 | phase k is 2*pi times the sum of freq[0..k] over the sample rate |
| Synth.DecayEnvelope | generate_simple_sfx.py:44-49 | `np.exp(-3 * t / duration)` over the n-point time grid has n gains (their values: DecayEnvelopeEnds, DecayEnvelopeBounded, DecayEnvelopeDecreasing) |
| Synth.DecayEnvelopeEnds | generate_simple_sfx.py:44-49 | the decay gain is 1 at sample 0 and exp(-3) at the last sample, where t = duration |
| Synth.DecayEnvelopeBounded | generate_simple_sfx.py:44-49 | every decay gain is in (0, 1] |
| Synth.DecayEnvelopeDecreasing | generate_simple_sfx.py:44-49 | the decay gain falls strictly from any sample to any later one |
| Synth.Sweep | generate_simple_sfx.py:42-50 | fails exactly on a negative count; otherwise `int(sr*d)` samples, each -v*g, 0 or v*g for the decay gain g at that sample |
| Synth.SweepBounded | generate_simple_sfx.py:42-50 | every sweep sample has magnitude <= abs(volume) |
| Synth.SweepSilentWhere | generate_simple_sfx.py:46-50 | a sweep sample is 0 exactly where the sine of its accumulated phase is 0 (or volume is) |
| Synth.WarningHighStack | generate_simple_sfx.py:123-127 | 4410 + 2205 + 4410 = 11025 samples; the first 4410 are the 880 Hz beep; the gap is all zeros; the last 4410 equal the first |
| Synth.LineClearSingleLayout | generate_simple_sfx.py:77-78 | the C-E arpeggio at 80 ms is 7056 samples and its second note starts at sample 3528 |
| Pcm.Clip | generate_simple_sfx.py:55 | clip lands in [-1, 1], keeps in-range values, saturates at the bounds |
| Pcm.ClipBuffer | generate_simple_sfx.py:55 | clipping keeps the length, lands every sample in [-1, 1] and leaves in-range samples unchanged |
| Pcm.ToInt16 | generate_simple_sfx.py:56 | the cast truncates toward zero: abs(q) <= abs(32767 y) < abs(q) + 1, within [-32767, 32767], sign kept |
| Pcm.Encode | generate_simple_sfx.py:55-56 | length kept; every value is 32767 * clip(x) truncated toward zero (abs(q) <= abs(32767 clip(x)) < abs(q) + 1, sign kept), so in [-32767, 32767]; zero gives 0; >= 1 gives 32767 and <= -1 gives -32767 |
| Pcm.EncodeMonotone | generate_simple_sfx.py:55-56 | a larger input sample never encodes to a smaller PCM value |
| Pcm.DecodeEncodeWithinStep | generate_simple_sfx.py:55-56 | decoding an encoded sample recovers the clipped input to within 1/32767 |
| Pcm.EncodeDecodeRoundTrip | generate_simple_sfx.py:55-56 | every PCM value except -32768 survives decode-then-encode exactly |
| AudioLookup.FindAudioSpec | generate_single_audio.py:22-34 | the result has the requested id; it is None exactly when neither list has the id; a music match is the first music match, even if an sfx entry also matches; otherwise the first sfx match |

## Left out

- File output in `save_wav` and `main` is not modelled: `wavfile.write` (the WAV header is scipy's), directory creation and printing.
- The explosion noise burst (generate_simple_sfx.py:105-107) is not modelled. Its samples come from `np.random.uniform`, and randomness is outside the model. Its 13230-sample length and its bound abs(s) <= 0.4 * exp(-8t) are therefore not stated.
- Float rounding, NaN and infinities are not modelled. With exact reals, `44100 * 0.05` is exactly 2205.
- Negative sample rates are not modelled: `sampleRate` is a `nat`. Every call in the source uses the default `SAMPLE_RATE = 44100`.
- The other catalogue calls in `main` are not modelled separately. Each one applies a modelled function to constants, so the general contracts cover them.
- Synth.Sweep: states that sample k is -v*g, 0 or v*g. Which level appears is tied to the phase only through the zero case, in Synth.SweepSilentWhere. The positive/negative split is not stated.
- AudioLookup.FindAudioSpec: the manifest is a typed record with both lists and an `id` on every entry. The `KeyError` the source raises for a malformed JSON file is outside the model. The source never modifies `requirements`, and in the model the manifest is an immutable value.
- `list_available_ids` and the rest of generate_single_audio.py are not modelled. They are printing, argument handling and MusicGen/torch inference.
- generate_audio.py, generate_audio_replicate.py, test_replicate.py, validate_audio.py and generate_audio_simple.py are not modelled. They are hosted-model HTTP calls, downloads, sleeps, file-existence checks and guidance text.
