# Equalizer screen audio core

This project models the audio core of the voice changer's equalizer screen
(`screens/EqualizerScreen.py`). The screen reads microphone frames of 8192
float samples at 44.1 kHz. Each frame goes through a ten-band FFT equalizer.
Then a gated chain of time-domain effects runs: echo, reverb, delay,
distortion and volume, followed by a peak limiter. The frame is then
pitch-shifted and played, and appended to a recording when recording is on.
Saving a recording multiplies every sample by 32767 and casts it to int16.

The module globals of the screen become the fields of one class,
`EqualizerScreen.Engine`:
- the streaming and recording flags;
- the recorded frames;
- the pitch factor;
- the equalizer dictionary, keyed by band label;
- the effects dictionary, keyed by effect name, with a history buffer for
  echo, reverb and delay.

The callbacks and the streaming loop are methods on that class. Each method
is proved against a pure specification: `Equalize`, the stage functions,
`Chain`, `Process`, `Stream` and `EncodeRecording`. The lemmas beside those
functions state what the source promises.

Modules, one per file:
- `Signal` (signal.dfy): frames, mixing, scaling and the peak magnitude.
- `Bands` (bands.dfy): band keys, band masks, `fftfreq` and the band stage.
- `Effects` (effects.dfy): the effect units, the chain and the processing
  step.
- `Recording` (recording.dfy): the int16 conversion done when saving.
- `EqualizerScreen` (engine.dfy): the `Engine` class and the streaming
  specification.

Three behaviours of the code are worth stating plainly:
- No gain is clamped. `update_equalizer` and `update_effect` store the
  slider value divided by 25 and by 100, as given
  (`screens/EqualizerScreen.py:188-192`, `:253-256`).
- Saving truncates toward zero, through `astype(np.int16)`; it does not
  round (`:286`).
- The comment on `update_equalizer` calls 50 "neutral". A slider at 50
  gives gain 2.0, and building the screen runs every band's callback with
  50 (`:461`), so every band starts streaming at gain 2.0.

## Model

| member | source | states |
|---|---|---|
| Bands.BandKey | screens/EqualizerScreen.py:33-39 | the key of a band ends in `k` exactly when its frequency is at least 1000 Hz |
| Bands.BandKeysDistinct | screens/EqualizerScreen.py:32-39 | the ten band keys are pairwise distinct, so the dictionary has ten entries |
| Bands.PlainBandKeys | screens/EqualizerScreen.py:153 | below 1000 Hz the key formula `str(freq)` gives "32", "64", "125", "250" and "500" |
| Bands.KiloBandKeys | screens/EqualizerScreen.py:153 | from 1000 Hz up the key formula `f"{int(freq/1000)}k"` gives "1k", "2k", "4k", "8k" and "16k" |
| Bands.BandKeysMatchLabels | screens/EqualizerScreen.py:153 | for every band, the key the band loop computes equals the key the dictionary and the slider use |
| Bands.BandKeyOf | screens/EqualizerScreen.py:153-156 | band i's gain is looked up under band i's own label |
| Bands.DecimalString | screens/EqualizerScreen.py:153 | `str(n)` is a non-empty string ending in a digit |
| Bands.BandIndex | screens/EqualizerScreen.py:143-151 | every frequency has a band whose mask accepts it |
| Bands.BandFrom | screens/EqualizerScreen.py:143-151 | the band search from band i finds a band at or after i whose mask accepts the magnitude |
| Bands.InBand | screens/EqualizerScreen.py:145-150 | the mask of band i: the first band takes `abs(f) <= 32`, the last `abs(f) > 8000`, band i in between `BANDS[i-1] < abs(f) <= BANDS[i]`; ExactlyOneBand proves that exactly one mask accepts any frequency |
| Bands.MasksDisjoint | screens/EqualizerScreen.py:145-151 | no two different band masks accept the same frequency |
| Bands.ExactlyOneBand | screens/EqualizerScreen.py:143-151 | a mask accepts a frequency if and only if it is the mask of that frequency's band: the masks cover the axis without gap or overlap |
| Bands.FftFreq | screens/EqualizerScreen.py:140 | `fftfreq(n, 1/RATE)[k]`: `k * RATE / n` for the first half of the bins, `-(n - k) * RATE / n` for the rest |
| Bands.MirrorBinsShareBand | screens/EqualizerScreen.py:140-151 | bins k and n - k fall in the same band, so a real signal's spectrum stays conjugate-symmetric |
| Bands.EqualizeUnity | screens/EqualizerScreen.py:143-156 | with every band at gain 1.0 the band stage leaves the spectrum unchanged |
| Bands.EqualizeMute | screens/EqualizerScreen.py:143-156 | with every band at gain 0.0 every bin becomes zero |
| Bands.EqualizeLocal | screens/EqualizerScreen.py:143-156 | changing band i's gain changes only the bins inside band i's mask, and those become the input bin times the new gain |
| Bands.Equalize | screens/EqualizerScreen.py:143-156 | the spectrum after the band loop, each bin scaled by its band's gain; BandLoopEqualizes proves the ten in-order masked passes produce it, and EqualizeUnity, EqualizeMute and EqualizeLocal give its behaviour |
| Bands.ScaleBand | screens/EqualizerScreen.py:156 | one pass of the band loop keeps the spectrum's length |
| Bands.BandsApplied | screens/EqualizerScreen.py:143-156 | the band loop's passes keep the spectrum's length |
| Bands.BandsAppliedBins | screens/EqualizerScreen.py:143-156 | after i passes, a bin whose band comes before i has been scaled exactly once, by its own band's gain, and every other bin is untouched |
| Bands.BandLoopEqualizes | screens/EqualizerScreen.py:143-156 | the ten passes of the band loop in order equal scaling each bin once by its band's gain |
| Signal.Abs | screens/EqualizerScreen.py:178 | the magnitude is non-negative and is the value or its negation |
| Signal.PeakAbs | screens/EqualizerScreen.py:178 | `np.max(np.abs(x))` bounds every sample's magnitude and is reached by one of them |
| Signal.Power | screens/EqualizerScreen.py:214 | `decay ** n` is positive for a positive base and lies in [0, 1] for a base in [0, 1] |
| Effects.InitialEffects | screens/EqualizerScreen.py:42-48 | the dictionary starts with five entries; the echo and delay buffers are one chunk of zeros and the reverb buffer four chunks of zeros; volume is 1.0 and every other gain 0.0 |
| Effects.ReverbTaps | screens/EqualizerScreen.py:211-214 | the reverb output after any number of taps is one chunk long |
| Effects.ReverbTapsAt | screens/EqualizerScreen.py:211-214 | sample k after n taps is the input sample plus the weighted history samples at offset k of the first n history frames |
| Effects.TapSumFour | screens/EqualizerScreen.py:208-214 | the four tap weights are `0.5 ** (i+1) * gain`: 1/2, 1/4, 1/8 and 1/16 of the gain |
| Effects.ReverbWeights | screens/EqualizerScreen.py:205-220 | a reverb output sample is the input plus gain times (oldest/2 + next/4 + next/8 + newest/16) |
| Effects.RollLeft | screens/EqualizerScreen.py:217 | `np.roll(s, -n)` keeps the buffer's length |
| Effects.OverwriteTail | screens/EqualizerScreen.py:218 | after `s[-len(t):] = t` the tail of the buffer is `t` and the head is unchanged |
| Effects.ReverbWindow | screens/EqualizerScreen.py:217-218 | the roll followed by the tail overwrite drops the oldest frame of the history and appends the input |
| Effects.ReverbForgets | screens/EqualizerScreen.py:217-218 | after four calls the reverb history holds exactly those four inputs, oldest first, whatever it held before |
| Effects.Clip | screens/EqualizerScreen.py:239 | `np.clip(x, -1, 1)`: the result lies in [-1, 1], is x inside the range and the nearer bound outside it |
| Effects.ScaleBound | screens/EqualizerScreen.py:246 | a frame within [-1, 1] scaled by a non-negative gain stays within [-gain, gain] |
| Effects.Shaped | screens/EqualizerScreen.py:234-240 | driving, clipping and shaping keep the frame's length |
| Effects.DivideBy | screens/EqualizerScreen.py:244 | dividing by a bound on the magnitudes lands every sample in [-1, 1], and multiplying back gives the input |
| Effects.Normalize | screens/EqualizerScreen.py:243-244 | after the normalisation step no sample exceeds 1.0 in magnitude |
| Effects.Distortion | screens/EqualizerScreen.py:232-246 | whatever the waveshaper does, no distorted sample exceeds the (non-negative) gain in magnitude |
| Effects.Limit | screens/EqualizerScreen.py:177-179 | the limiter leaves a frame within [-1, 1] unchanged, divides any other by its peak, and its output never exceeds 1.0 in magnitude |
| Effects.EchoStage | screens/EqualizerScreen.py:162-163 | the echo stage keeps the dictionary's shape, changes no gain, and leaves the history alone when its gain is not positive |
| Effects.ReverbStage | screens/EqualizerScreen.py:165-166 | the same for the reverb stage |
| Effects.DelayStage | screens/EqualizerScreen.py:168-169 | the same for the delay stage |
| Effects.DistortionStage | screens/EqualizerScreen.py:171-172 | the distortion stage never changes the dictionary; what it does to the frame is stated by ChainDistortionOnly |
| Effects.VolumeStage | screens/EqualizerScreen.py:174-175 | the volume stage never changes the dictionary; what it does to the frame is stated by ChainMuted |
| Effects.LimiterStage | screens/EqualizerScreen.py:177-179 | the limiter stage never changes the dictionary, and a frame it lets through lies within [-1, 1] |
| Effects.RunUnit | screens/EqualizerScreen.py:161-179 | no unit changes a gain or the dictionary's shape, and the limiter's output lies within [-1, 1] |
| Effects.RunChain | screens/EqualizerScreen.py:161-179 | a chain ending in the limiter leaves the frame within [-1, 1], and no chain changes a gain |
| Effects.Chain | screens/EqualizerScreen.py:161-179 | the whole chain changes no gain, keeps the dictionary's shape, and leaves any frame it returns within [-1, 1] |
| Effects.ChainUnrolled | screens/EqualizerScreen.py:161-179 | the chain is echo, reverb, delay, distortion, volume and the limiter, composed in that order |
| Effects.Process | screens/EqualizerScreen.py:136-185 | the processing step returns either the unprocessed input (the exception path) or a frame within [-1, 1], and leaves a well-formed dictionary |
| Effects.ChainPassThrough | screens/EqualizerScreen.py:161-179 | with every effect off, volume 1.0 and no sample above 1.0, the chain returns the frame unchanged and touches no history |
| Effects.ChainMuted | screens/EqualizerScreen.py:174-175 | volume always runs: at a volume of 0.0 every frame the chain returns is all zeros, whatever the other gains are |
| Effects.ChainDistortionOnly | screens/EqualizerScreen.py:171-172 | with echo, reverb and delay off, distortion at a gain in (0, 1] and volume 1.0, the chain returns exactly the distorted frame |
| Effects.ChainOrder | screens/EqualizerScreen.py:161-169 | with echo, reverb and delay on, the echo keeps the chain's input, the reverb history receives the echo's output, and the delay line receives the reverb's output |
| Effects.WrongLengthFallsBack | screens/EqualizerScreen.py:183-185 | a frame that raises in the echo makes the whole step return the input and leave every history as it was |
| Effects.ProcessIdentity | screens/EqualizerScreen.py:136-185 | with a round-tripping transform pair, bands at 1.0, effects off and volume 1.0, processing a frame within [-1, 1] returns it unchanged |
| Effects.EchoImpulse | screens/EqualizerScreen.py:195-203 | an impulse through the echo comes back once, one frame later, scaled by the gain, and is then gone |
| Effects.DelayRun | screens/EqualizerScreen.py:222-230 | the delay unit over a run of frames yields one output per frame, each as long as the line |
| Effects.DelayStages | screens/EqualizerScreen.py:168-169 | the delay stage run over successive frames, each from the dictionary the previous one left, gives one output per frame |
| Effects.DelayStagesAreRun | screens/EqualizerScreen.py:222-230 | with its gain positive, the delay stage run over chunk-long frames outputs exactly DelayRun from its line and gain, so DelayDecay and DelayImpulse hold of the stage itself |
| Effects.DelaySilentStep | screens/EqualizerScreen.py:222-230 | a silent frame through the delay outputs the line times the gain and leaves 0.3 of the line |
| Effects.Decayed | screens/EqualizerScreen.py:228 | the delay line after j feedback rounds keeps its length |
| Effects.DecayedPower | screens/EqualizerScreen.py:228 | j feedback rounds scale every sample of the line by `0.3 ** j` |
| Effects.DelayDecay | screens/EqualizerScreen.py:222-230 | fed only silence, the delay outputs its line after j rounds of feedback times the gain on frame j |
| Effects.DelayImpulse | screens/EqualizerScreen.py:222-230 | an impulse into a silent line returns on every later frame j as the impulse after j - 1 feedback rounds times the gain |
| Recording.TruncateToInt | screens/EqualizerScreen.py:286 | the float-to-integer cast truncates toward zero: the result has the sign of x and is within one of x, on the side of zero |
| Recording.WrapInt16 | screens/EqualizerScreen.py:286 | the int16 cast wraps: the result lies in [-32768, 32767], is congruent to the input modulo 65536, and is the input when it is in range |
| Recording.Int16Sample | screens/EqualizerScreen.py:286 | a converted sample always lies in the int16 range |
| Recording.Int16InRange | screens/EqualizerScreen.py:286 | a sample in [-1, 1] converts without wrapping, to within one step below `s * 32767` toward zero, in [-32767, 32767] |
| Recording.Int16Points | screens/EqualizerScreen.py:286 | 1.0 gives 32767, -1.0 gives -32767, 0.5 gives 16383 (not 16384) and -0.5 gives -16383 |
| Recording.Int16Odd | screens/EqualizerScreen.py:286 | within [-1, 1], negating a sample negates its converted value |
| Recording.Int16Wraps | screens/EqualizerScreen.py:286 | an out-of-range sample wraps: 1.5 gives -16386 |
| Recording.EncodeAppend | screens/EqualizerScreen.py:285-287 | saving two runs of frames writes the first run's samples, then the second's |
| Recording.EncodeRecording | screens/EqualizerScreen.py:285-287 | the samples the save loop writes, frame after frame; EncodeAppend, EncodeLength and EncodeLayout prove its concatenation law, its length and where each sample lands |
| Recording.EncodeLength | screens/EqualizerScreen.py:285-287 | frames of a common length `len` write exactly `frames * len` samples |
| Recording.EncodeLayout | screens/EqualizerScreen.py:285-287 | sample k of frame f lands at position `f * len + k` of the file |
| EqualizerScreen.InitialEqualizer | screens/EqualizerScreen.py:32-39 | the equalizer starts with one entry per band label, carrying the band's frequency, every gain 1.0 |
| EqualizerScreen.BandGain | screens/EqualizerScreen.py:188-192 | slider position to band gain: the gain times 25 is the position, and positions 0 to 100 give gains 0 to 4 |
| EqualizerScreen.EffectGain | screens/EqualizerScreen.py:253-256 | slider position to effect gain: the gain times 100 is the position, and positions 0 to 100 give gains 0 to 1 |
| EqualizerScreen.WithGain | screens/EqualizerScreen.py:256 | setting an effect's gain keeps its kind and its history buffer |
| EqualizerScreen.SetBandGain | screens/EqualizerScreen.py:188-192 | moving band i's slider keeps the dictionary's shape, changes band i's gain and no other, and so changes only the bins in band i's mask |
| EqualizerScreen.ScaleBandInPlace | screens/EqualizerScreen.py:156 | `fft_data[mask] *= gain` in place equals one pass of the band loop |
| EqualizerScreen.Stream | screens/EqualizerScreen.py:102-127 | the streaming loop never plays more frames than it reads, and leaves a well-formed dictionary |
| EqualizerScreen.StreamStep | screens/EqualizerScreen.py:108-123 | one turn of the loop plays nothing or one frame, appended after what was played before |
| EqualizerScreen.StreamExtend | screens/EqualizerScreen.py:103-127 | reading one more frame extends the stream by exactly one turn of the loop |
| EqualizerScreen.StreamAppend | screens/EqualizerScreen.py:103-127 | streaming frames in two runs, the second starting from the dictionary the first left, plays and leaves the same as one run |
| EqualizerScreen.StreamPlaysAll | screens/EqualizerScreen.py:103-127 | when the pitch shift never raises, every frame read is played, in reading order |
| EqualizerScreen.Engine.Gains | screens/EqualizerScreen.py:153-156 | the engine has one band gain per band |
| EqualizerScreen.Engine.constructor | screens/EqualizerScreen.py:24-48 | the module-load state: not streaming, not recording, nothing recorded, pitch 0, the initial dictionaries |
| EqualizerScreen.Engine.StartStream | screens/EqualizerScreen.py:56-82 | after start the engine is streaming; the loop is launched exactly when it was not streaming before |
| EqualizerScreen.Engine.StopStream | screens/EqualizerScreen.py:85-99 | after stop the engine is not streaming; the streams are closed exactly when it was streaming before |
| EqualizerScreen.Engine.StartRecording | screens/EqualizerScreen.py:259-263 | starting a recording discards what was recorded and sets the flag |
| EqualizerScreen.Engine.StopRecording | screens/EqualizerScreen.py:265-290 | stopping while recording clears the flag and hands the recorded frames, as int16 samples, to the save step; otherwise nothing happens |
| EqualizerScreen.Engine.ToggleRecording | screens/EqualizerScreen.py:346 | the record button flips the flag: it stops and saves when recording, and starts with an empty recording otherwise |
| EqualizerScreen.Engine.UpdatePitch | screens/EqualizerScreen.py:379-381 | the pitch factor becomes the slider value |
| EqualizerScreen.Engine.UpdateEqualizer | screens/EqualizerScreen.py:188-192 | a known band gets the converted slider value as its gain and keeps its frequency; a name that is not a band raises and changes nothing |
| EqualizerScreen.Engine.SetSliderDefaults | screens/EqualizerScreen.py:408-461 | building the screen runs every band callback with 50, so every band leaves at gain 2.0 with its frequency |
| EqualizerScreen.Engine.UpdateEffect | screens/EqualizerScreen.py:253-256 | a known effect gets the converted slider value as its gain and keeps its history; an unknown name raises and changes nothing |
| EqualizerScreen.Engine.ApplyEcho | screens/EqualizerScreen.py:195-203 | the echo output is input + history * gain and the history becomes the input; a length mismatch raises before the history changes |
| EqualizerScreen.Engine.ApplyReverb | screens/EqualizerScreen.py:205-220 | the loop over the four taps computes the reverb output, and the history drops its oldest frame and appends the input; a frame that is not one chunk raises |
| EqualizerScreen.Engine.ApplyDelay | screens/EqualizerScreen.py:222-230 | the delay output is input + line * gain and the line becomes input + 0.3 * line; a length mismatch raises before the line changes |
| EqualizerScreen.Engine.ApplyBandGains | screens/EqualizerScreen.py:143-156 | the band loop, run in place and looking each gain up under the computed key, leaves the equalized spectrum |
| EqualizerScreen.Engine.ApplyBufferedEffects | screens/EqualizerScreen.py:161-169 | the gated echo, reverb and delay calls leave the frame and the histories that the first three stages specify |
| EqualizerScreen.Engine.ProcessWithEqualizer | screens/EqualizerScreen.py:136-185 | one call returns the frame and leaves the dictionary that the processing step specifies |
| EqualizerScreen.Engine.StreamFrame | screens/EqualizerScreen.py:108-123 | one turn processes, shifts, records when recording, and plays exactly what a turn of the stream specifies |
| EqualizerScreen.Engine.StreamTurn | screens/EqualizerScreen.py:103-127 | turn i extends the frames played so far to the stream of the first i + 1 frames read |
| EqualizerScreen.Engine.StreamAudio | screens/EqualizerScreen.py:102-127 | while streaming, the loop plays the stream of the frames read and records exactly what it plays when recording; not streaming, nothing happens |
| EqualizerScreen.Engine.StreamLoop | screens/EqualizerScreen.py:103-127 | the loop's frames played and dictionary are the stream of all frames read, and the recording grows by exactly the frames played |

## Left out

- The FFT, the inverse FFT (its real part), the pitch shift and the `sin(x * pi / 2)` waveshaper are library numerics. They are function parameters (`fft`, `ifft`, `shift`, `shape`). A pitch shift that raises is a `shift` returning `None`.
- Floating point is modelled as exact real arithmetic. Rounding, NaN and infinities are not modelled.
- PyAudio, the microphone and the speaker are not modelled. The frames read while streaming are a parameter of `StreamAudio`, and the frames played are its result.
- The streaming thread is not modelled. `StreamAudio` runs over a batch of frames that were read while streaming. Slider and button callbacks that interleave with the loop are not modelled; gains and the pitch factor are fixed for the batch.
- A failing microphone read is not modelled (it is caught and skipped in the source).
- A failing speaker write after the record append is not modelled. In the source such a frame would be recorded but not played.
- The save dialog and the wave file header are not modelled. `StopRecording` returns the int16 samples it would write, and a cancelled dialog is not distinguished.
- EqualizerScreen.Engine.StopRecording: does not model an exception while writing the file.
- Recording.WrapInt16: the int16 cast of an out-of-range value is modelled as a two's-complement wrap of the truncated value. numpy's behaviour there is platform-defined beyond the 32-bit range.
- numpy broadcasting of a length-1 frame against an effect buffer is not modelled. Any length mismatch is treated as the exception it is for every other length.
- Effects.Process: the exception path covers an empty frame, an empty spectrum and a length mismatch in echo, reverb or delay. Other library errors are covered only through the parameters.
- The dB labels, the pitch factor label and icon, the effect percentage labels and the status indicator colour are user interface only.
- The unused module-level deques (`echo_buffer`, `delay_buffer`, `reverb_buffer`) are not modelled: no code reads them.
- main.py is not part of this model.
- The effect sliders start at 0 (50 for volume) without running their callbacks, so they do not change the effects dictionary. That needs no operation in the model.
- The log messages printed on errors, on stopping and on saving are not modelled (`print` has no effect on the state).
