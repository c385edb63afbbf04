# A verified model of the AllocationTone synthesizer core

AllocationTone turns the JVM's allocation rate into a tone. Its sound engine
has three classes, all nested in `AllocationTone.java`:

- `BasicOscillator` is a phase-counter tone generator. It holds a waveshape
  (SIN, SQU or SAW), a period in samples computed from a frequency, and a
  sample index. Each sample it produces steps the index by one, modulo the
  period. A buffer is 500 samples, each scaled to a signed 16-bit amplitude
  and written as two big-endian bytes.
- `SamplePlayer` is a thread. Its loop pulls 1000-byte buffers from a sample
  provider and writes them to an audio line (22050 Hz, 16-bit signed, mono,
  big-endian). For its first 20 buffers it is its own provider: it counts the
  buffer and leaves the zero-filled array as it is, so the line is primed
  with silence. At the 20th buffer it switches to the real provider.
- `SoftSynth` wires the two together. It makes a SIN oscillator, sets it as
  the player's real provider and starts the player. On a schedule, it feeds
  a frequency into the oscillator.

The model has four modules:

- `Pcm` (`pcm.dfy`) holds the audio format constants. It also holds the
  Java narrowing conversions `(short)` and `(byte)`, the rounding
  `Math.round`, and the bit operations `>> 8` and `& 0xFF`. It packs samples
  into byte pairs and reads them back.
- `Oscillator` (`oscillator.dfy`) holds the oscillator. Its value-level
  specification is a `Voice`, the abstract state: shape, period, index and
  sine. The specification functions are `Period`, `Wave`, `Advance`,
  `After`, `Samples`, `Render` and `Stream`. The class `BasicOscillator`
  has the Java fields, and its methods are proved against those functions.
- `Player` (`player.dfy`) holds the class `SamplePlayer`. The audio line is
  a ghost field `written`, the sequence of buffers written to it. What a run
  writes is specified by `Playback`, which is `TEMP_BUFFER_COUNT` buffers of
  silence followed by the oscillator's `Stream`.
- `Synth` (`synth.dfy`) holds the class `SoftSynth`, a single run of the
  scheduled frequency task (`Tick`), and `FreshSession`. `FreshSession`
  states what a new synthesizer's line receives when the frequency task runs
  once, with no delay, before the player leaves priming.

The main properties proved are these:

- The oscillator's buffers are the packing of consecutive samples.
  Buffer boundaries do not disturb the phase (`StreamContinuous`).
- The line decodes each buffer back to the intended amplitudes
  (`RenderDecodes`, `UnpackPack`).
- Amplitudes never wrap (`Amplitude`).
- The phase index is periodic (`AdvancePeriodic`, `SamplesPeriodic`,
  `FullCycle`).
- A run writes exactly the priming silence and then the oscillator's stream
  (`Player.SamplePlayer.Run`, `PlaybackShape`, `FreshSession`).

The code does not reject a frequency above the sample rate. `setFrequency`
stores `(long) (22050 / f)`, which is 0 for such a frequency. The model
follows the code: `SetFrequency` accepts every positive frequency and
ensures that the oscillator can produce samples exactly when `f <= 22050`.
There is no `InvalidFrequency` error path, because the code has none.
`SAMPLES_PER_BUFFER` is `BUFFER_SIZE / 2` in the code; the model writes it as
the constant 500.

## Model

| member | source | states |
|---|---|---|
| Pcm.ToByte | src/main/java/com/tersesystems/alloctone/AllocationTone.java:182-183 | `(byte)` gives the one byte congruent to its argument modulo 256 |
| Pcm.ToByteInRange | src/main/java/com/tersesystems/alloctone/AllocationTone.java:182-183 | `(byte)` leaves a value already in the byte range alone |
| Pcm.ToShort | src/main/java/com/tersesystems/alloctone/AllocationTone.java:181 | `(short)` gives a short congruent to its argument modulo 65536 and leaves an in-range value alone |
| Pcm.HighByte | src/main/java/com/tersesystems/alloctone/AllocationTone.java:182 | `(byte) (ss >> 8)` of a short is its high byte, unwrapped: the short lies in the 256 values starting at 256 times it |
| Pcm.LowByte | src/main/java/com/tersesystems/alloctone/AllocationTone.java:183 | `(byte) (ss & 0xFF)` keeps the short's value modulo 256 |
| Pcm.Round | src/main/java/com/tersesystems/alloctone/AllocationTone.java:181 | `Math.round` gives an integer within half a unit of its argument, with halves rounded up |
| Pcm.Amplitude | src/main/java/com/tersesystems/alloctone/AllocationTone.java:180-181 | the result is a short; for a waveform value in [-1, 1] it is the rounded scaled value within ±32767, so the `(short)` cast never wraps |
| Pcm.AmplitudeExtremes | src/main/java/com/tersesystems/alloctone/AllocationTone.java:180-181 | 1, 0 and -1 map to 32767, 0 and -32767 |
| Pcm.Decode16 | src/main/java/com/tersesystems/alloctone/AllocationTone.java:195-198 | a big-endian signed 16-bit pair decodes to a short |
| Pcm.SplitJoin | src/main/java/com/tersesystems/alloctone/AllocationTone.java:181-183 | the high byte `ss >> 8` and low byte `ss & 0xFF` of a short decode back to it |
| Pcm.JoinSplit | src/main/java/com/tersesystems/alloctone/AllocationTone.java:182-183 | every byte pair is the split of the sample it decodes to |
| Pcm.Pack | src/main/java/com/tersesystems/alloctone/AllocationTone.java:179-184 | packing gives two bytes per sample |
| Pcm.Unpack | src/main/java/com/tersesystems/alloctone/AllocationTone.java:195-198 | reading bytes back gives half as many samples, each a short |
| Pcm.PackAt | src/main/java/com/tersesystems/alloctone/AllocationTone.java:179-184 | sample i sits at bytes 2i (high) and 2i+1 (low) |
| Pcm.PackPointwise | src/main/java/com/tersesystems/alloctone/AllocationTone.java:179-184 | a byte run holding every sample's high and low byte at 2i and 2i+1 is the packing |
| Pcm.PackAppend | src/main/java/com/tersesystems/alloctone/AllocationTone.java:179-184 | packing distributes over concatenation |
| Pcm.UnpackPack | src/main/java/com/tersesystems/alloctone/AllocationTone.java:179-184 | reading packed shorts back gives the shorts |
| Oscillator.Period | src/main/java/com/tersesystems/alloctone/AllocationTone.java:146-148 | `(long) (22050 / f)`: the floor of the quotient, saturating at `Long.MAX_VALUE`; it is 0 exactly when f > 22050 |
| Oscillator.DefaultPeriod | src/main/java/com/tersesystems/alloctone/AllocationTone.java:137-140 | the default 1000 Hz gives a period of 22 samples |
| Oscillator.Wave | src/main/java/com/tersesystems/alloctone/AllocationTone.java:150-172 | the SIN, SQU and SAW waveform value at an index lies in [-1, 1] |
| Oscillator.Level | src/main/java/com/tersesystems/alloctone/AllocationTone.java:180-181 | the emitted amplitude lies within ±32767 |
| Oscillator.SquareLevel | src/main/java/com/tersesystems/alloctone/AllocationTone.java:161-167 | a square wave is at +32767 exactly when the index is below half the period, else at -32767 |
| Oscillator.Advance | src/main/java/com/tersesystems/alloctone/AllocationTone.java:173 | after at least one step the index is in [0, period) |
| Oscillator.AdvanceStep | src/main/java/com/tersesystems/alloctone/AllocationTone.java:173 | the closed form is the step: no samples leave the index alone; one more sample adds one modulo the period |
| Oscillator.AdvanceAdd | src/main/java/com/tersesystems/alloctone/AllocationTone.java:173 | a steps and then b steps are a + b steps |
| Oscillator.AdvancePeriodic | src/main/java/com/tersesystems/alloctone/AllocationTone.java:173 | a whole period of steps returns the index to where it was, once it is in range |
| Oscillator.After | src/main/java/com/tersesystems/alloctone/AllocationTone.java:173 | playing keeps shape, period and sine, and keeps the voice playable |
| Oscillator.AfterAfter | src/main/java/com/tersesystems/alloctone/AllocationTone.java:173 | playing a samples and then b is playing a + b |
| Oscillator.Samples | src/main/java/com/tersesystems/alloctone/AllocationTone.java:179-181 | the next k amplitudes of a voice number k |
| Oscillator.SamplesAppend | src/main/java/com/tersesystems/alloctone/AllocationTone.java:173-181 | a + b samples are a samples followed by b more from where those left off |
| Oscillator.SquareCycle | src/main/java/com/tersesystems/alloctone/AllocationTone.java:161-167 | from index 0, a square wave gives p/2 samples at +32767, then the rest of the period at -32767 |
| Oscillator.SamplesPeriodic | src/main/java/com/tersesystems/alloctone/AllocationTone.java:150-173 | every waveshape's samples repeat with the period: from the first sample when the index is in range, and from the second after a shortened period left it beyond the period |
| Oscillator.FullCycle | src/main/java/com/tersesystems/alloctone/AllocationTone.java:173 | one period from index 0 brings the index back to 0 |
| Oscillator.Render | src/main/java/com/tersesystems/alloctone/AllocationTone.java:177-186 | one buffer is 1000 bytes |
| Oscillator.RenderDecodes | src/main/java/com/tersesystems/alloctone/AllocationTone.java:180-183 | the line, reading a buffer as big-endian shorts, hears the voice's next 500 amplitudes |
| Oscillator.Stream | src/main/java/com/tersesystems/alloctone/AllocationTone.java:252-256 | k successive buffers number k |
| Oscillator.StreamAt | src/main/java/com/tersesystems/alloctone/AllocationTone.java:252-256 | buffer j of a stream is the voice's buffer after 500 j samples |
| Oscillator.ConcatStream | src/main/java/com/tersesystems/alloctone/AllocationTone.java:255 | writing one more buffer appends its bytes to the line |
| Oscillator.PackSamplesAppend | src/main/java/com/tersesystems/alloctone/AllocationTone.java:179-184 | the packed bytes of two consecutive runs of samples are the packed bytes of the whole run |
| Oscillator.StreamContinuous | src/main/java/com/tersesystems/alloctone/AllocationTone.java:177-186 | k buffers laid end to end are the packing of 500 k consecutive samples: buffer boundaries do not disturb the phase |
| Oscillator.BasicOscillator.State | src/main/java/com/tersesystems/alloctone/AllocationTone.java:129-131 | an oscillator that can produce samples has a playable abstract state |
| Oscillator.BasicOscillator.constructor | src/main/java/com/tersesystems/alloctone/AllocationTone.java:137-140 | a new oscillator plays SIN with period 22 from index 0 |
| Oscillator.BasicOscillator.SetWaveshape | src/main/java/com/tersesystems/alloctone/AllocationTone.java:142-144 | sets the waveshape |
| Oscillator.BasicOscillator.SetFrequency | src/main/java/com/tersesystems/alloctone/AllocationTone.java:146-148 | the period becomes `Period(f)`; index and shape are unchanged; the oscillator can produce samples exactly when f <= 22050 |
| Oscillator.BasicOscillator.GetSample | src/main/java/com/tersesystems/alloctone/AllocationTone.java:150-175 | returns the waveform value at the old index, in [-1, 1]; the index becomes (old + 1) mod period and the state is `After(old, 1)` |
| Oscillator.BasicOscillator.GetSamples | src/main/java/com/tersesystems/alloctone/AllocationTone.java:177-186 | the first 1000 bytes become `Render` of the old state and the rest are unchanged; the index advances 500 samples; returns 1000 |
| Player.Silence | src/main/java/com/tersesystems/alloctone/AllocationTone.java:211-218 | a silent buffer is 1000 bytes long |
| Player.Silences | src/main/java/com/tersesystems/alloctone/AllocationTone.java:234-241 | k silent buffers number k |
| Player.TurnOutput | src/main/java/com/tersesystems/alloctone/AllocationTone.java:252-256 | what one turn of the loop writes is one full 1000-byte buffer: silence while priming, then the oscillator's next buffer |
| Player.Playback | src/main/java/com/tersesystems/alloctone/AllocationTone.java:252-256 | k turns of the loop write k buffers of 1000 bytes each, one per turn |
| Player.PlaybackShape | src/main/java/com/tersesystems/alloctone/AllocationTone.java:234-257 | k turns of the loop write the remaining priming silence, then the oscillator's stream from where it stood |
| Player.PlaybackAt | src/main/java/com/tersesystems/alloctone/AllocationTone.java:234-257 | turn j writes silence while priming, then the oscillator's buffer after 500 (j - priming) samples |
| Player.SamplePlayer.PrimingLeft | src/main/java/com/tersesystems/alloctone/AllocationTone.java:234-241 | while priming, buffers left plus buffers counted is 20; after the switch none are left |
| Player.SamplePlayer.constructor | src/main/java/com/tersesystems/alloctone/AllocationTone.java:215-221 | a new player is priming with a zero-filled 1000-byte array, no real provider, not run, and nothing written |
| Player.SamplePlayer.GetSamples | src/main/java/com/tersesystems/alloctone/AllocationTone.java:234-241 | counts one buffer, returns 1000, and switches to the real provider once the count reaches 20 |
| Player.SamplePlayer.Pull | src/main/java/com/tersesystems/alloctone/AllocationTone.java:253 | while priming, the array stays silent and the oscillator is untouched; after the switch, the array holds the oscillator's next buffer and the oscillator advances 500 samples |
| Player.SamplePlayer.PlayBuffer | src/main/java/com/tersesystems/alloctone/AllocationTone.java:253-256 | one turn writes the next buffer of the playback to the line and keeps the loop invariant |
| Player.SamplePlayer.Play | src/main/java/com/tersesystems/alloctone/AllocationTone.java:252-257 | the loop exits only with `done` set, and writes exactly the playback of the turns it completes before it sees the stop request |
| Player.SamplePlayer.Run | src/main/java/com/tersesystems/alloctone/AllocationTone.java:243-264 | `done` ends equal to whether the line opened; with no line nothing is written and the oscillator, the priming count, the provider and the sample array are unchanged; otherwise the line receives the remaining priming silence and then the oscillator's stream, the oscillator ends 500 samples further on per real buffer (untouched if the stop comes while priming), and the priming buffers left drop by the turns taken, down to 0 |
| Player.SamplePlayer.StartPlayer | src/main/java/com/tersesystems/alloctone/AllocationTone.java:266-275 | the player counts as started if it already was, or if a real provider is set; a restart changes nothing |
| Player.SamplePlayer.StopPlayer | src/main/java/com/tersesystems/alloctone/AllocationTone.java:277-279 | sets the stop request |
| Player.SamplePlayer.SetSampleProvider | src/main/java/com/tersesystems/alloctone/AllocationTone.java:281-283 | sets the real provider |
| Synth.SoftSynth.constructor | src/main/java/com/tersesystems/alloctone/AllocationTone.java:102-117 | a new synthesizer has a SIN oscillator at period 22 and index 0, set as the real provider of a started, priming player that has written nothing |
| Synth.SoftSynth.Tick | src/main/java/com/tersesystems/alloctone/AllocationTone.java:106-109 | the scheduled task sets the period from the supplied frequency and leaves index and shape alone; the oscillator can still produce samples exactly when the frequency is at most 22050 Hz |
| Synth.SoftSynth.Stop | src/main/java/com/tersesystems/alloctone/AllocationTone.java:119-122 | stopping sets the player's stop request |
| Synth.FreshSession | src/main/java/com/tersesystems/alloctone/AllocationTone.java:102-117 | a new synthesizer whose frequency task runs once with frequency f before the player leaves priming, and whose player then completes k turns, writes min(k, 20) silent buffers, then the stream of the SIN tone of period `Period(f)` from index 0 |

## Left out

- `main`, the garbage-producing writer thread and `MeterThread` (`AllocationTone.java:49-86` and the meter class) are not part of this model. They are I/O and allocation measurement.
- Threads and scheduling are not modelled. `SoftSynth.start` schedules the frequency task with an initial delay of 0 and then every `interval`, 50 ms by default (`AllocationTone.java:98-100`, `AllocationTone.java:114`). The model reduces this to `Tick`, one run of the task. `FreshSession` places that run before the player leaves priming. Later runs, which interleave with a running player loop and change the period between buffers, are not modelled.
- Synth.FreshSession: requires the first frequency to be at most 22050 Hz. A higher one gives period 0, and the player loop would then throw; see the `Run` line below.
- The stop request is modelled by the `stopAfter` parameter: the number of turns the loop completes before it sees `done`. The race in which a stop issued before `run` sets `done = false` is lost is not modelled.
- `javax.sound` is left out. Obtaining and opening the line becomes the `lineOpens` parameter. The line itself is the ghost sequence `written`. `drain`, `close`, `printStackTrace` and the error message of a refused restart are not modelled.
- Player.SamplePlayer.Run: requires a real provider that can produce samples: non-null, with a positive period. The source's exception paths are not modelled. These are the `NullPointerException` when no provider is set, the `ArithmeticException` when the period is 0, and the `NullPointerException` in `finally` when the line never opened.
- `Math.sin` is abstracted as the `sine` parameter: any function into [-1, 1]. Doubles are modelled as exact reals. Rounding error is therefore not modelled in three places: `sampleNumber / (double) periodSamples`, the scaling by 32767, and the quotient `22050 / f` in `setFrequency` (`AllocationTone.java:147`).
- Oscillator.Period: floors the exact quotient 22050 / f. Java floors the quotient rounded to a double, so when 22050 / f lies just below an integer the model's period can be one less than the code's. For example, the double nearest 22050/13 gives 13 in Java and 12 in the model.
- Oscillator.BasicOscillator.SetFrequency: requires a positive frequency. The IEEE results for zero, negative or NaN frequencies are not modelled.
- `bufferCount` is an unbounded integer. Its 32-bit wrap-around cannot occur in the model, because counting stops at the switch to the real provider.
- `ISampleProvider` is restricted to the player itself and `BasicOscillator`, the only providers the code uses.
- `SoftSynth.stop`'s `st.shutdown()` is not modelled, because there is no scheduler in the model.
