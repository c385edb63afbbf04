/** The phase-counter tone generator: a waveshape, a period in samples and a
    sample index that steps by one modulo the period on every sample. */
module Oscillator {
  import opened Pcm

  datatype Waveshape = SIN | SQU | SAW

  /** `sine(x)` stands for `Math.sin(2 * PI * x)`: any function into [-1, 1]. */
  ghost predicate SineLike(sine: real -> real) {
    forall x :: -1.0 <= sine(x) <= 1.0
  }

  /** The abstract state of an oscillator: what its fields hold. */
  datatype Voice = Voice(shape: Waveshape, period: int, index: int, sine: real -> real)

  /** A voice that can produce a sample: a positive period and a non-negative index. */
  ghost predicate Playable(v: Voice) {
    v.period > 0 && v.index >= 0 && SineLike(v.sine)
  }

  /** `(long) (SAMPLE_RATE / f)` for a positive frequency: the period in
      samples, rounded down, saturating at `Long.MAX_VALUE`. It is zero exactly
      when the frequency is above the sample rate. */
  function Period(f: real): (p: int)
    requires f > 0.0
    ensures 0 <= p <= LONG_MAX
    ensures p == 0 <==> f > SAMPLE_RATE as real
    ensures p as real <= SAMPLE_RATE as real / f
    ensures p < LONG_MAX ==> SAMPLE_RATE as real / f < p as real + 1.0
  {
    var q := (SAMPLE_RATE as real / f).Floor;
    if q > LONG_MAX then LONG_MAX else q
  }

  /** The default frequency of 1000 Hz gives a period of 22 samples. */
  lemma DefaultPeriod()
    ensures Period(1000.0) == 22
  {
  }

  /** The waveform value at index `n` of period `p`, always within [-1, 1].
      SAW is the centered shape 2(x - floor(x + 1/2)). */
  function Wave(shape: Waveshape, n: int, p: int, sine: real -> real): (v: real)
    requires p > 0 && SineLike(sine)
    ensures -1.0 <= v <= 1.0
  {
    var x := n as real / p as real;
    match shape
    case SIN => sine(x)
    case SQU => if n < p / 2 then 1.0 else -1.0
    case SAW => 2.0 * (x - (x + 0.5).Floor as real)
  }

  /** The 16-bit amplitude the oscillator emits at index `n`. */
  function Level(shape: Waveshape, n: int, p: int, sine: real -> real): (s: int)
    requires p > 0 && SineLike(sine)
    ensures -SHORT_MAX <= s <= SHORT_MAX
  {
    Amplitude(Wave(shape, n, p, sine))
  }

  /** A square wave is at full scale exactly in the first half period, rounded down. */
  lemma SquareLevel(n: int, p: int, sine: real -> real)
    requires p > 0 && SineLike(sine)
    ensures Level(SQU, n, p, sine) == (if n < p / 2 then SHORT_MAX else -SHORT_MAX)
  {
    AmplitudeExtremes();
  }

  /** The index after `k` samples starting from index `n`, in closed form.
      With no step taken the index is left as it is, even beyond the period
      (a shortened period does not reset it); every step wraps it into range. */
  function Advance(n: int, p: int, k: nat): (m: int)
    requires n >= 0 && p > 0
    ensures m >= 0
    ensures k > 0 ==> m < p
  {
    if k == 0 then n else (n + k) % p
  }

  /** `x % p` is determined by any quotient-remainder split of `x`. */
  lemma ModOf(x: int, p: int, q: int, r: int)
    requires p > 0 && 0 <= r < p && x == q * p + r
    ensures x % p == r
  {
    var d, m := x / p, x % p;
    assert (q - d) * p == m - r;
    if q - d > 0 {
      MulAtLeast(q - d, p);
    } else if q - d < 0 {
      MulAtLeast(d - q, p);
    }
  }

  lemma MulAtLeast(t: int, p: int)
    requires t >= 1 && p > 0
    ensures t * p >= p
  {
    assert t * p == (t - 1) * p + p;
  }

  /** Adding after reducing is reducing after adding. */
  lemma ModAdd(x: int, b: int, p: int)
    requires p > 0
    ensures (x % p + b) % p == (x + b) % p
  {
    var q, r := x / p, x % p;
    var q2, r2 := (r + b) / p, (r + b) % p;
    assert x + b == (q + q2) * p + r2;
    ModOf(x + b, p, q + q2, r2);
  }

  /** The closed form is the step the oscillator takes on every sample:
      one more sample adds one to the index, modulo the period. */
  lemma {:induction false} AdvanceStep(n: int, p: int, k: nat)
    requires n >= 0 && p > 0
    ensures Advance(n, p, 0) == n
    ensures Advance(n, p, k + 1) == (Advance(n, p, k) + 1) % p
  {
    if k > 0 {
      ModAdd(n + k, 1, p);
    }
  }

  /** Steps compose. */
  lemma {:induction false} AdvanceAdd(n: int, p: int, a: nat, b: nat)
    requires n >= 0 && p > 0
    ensures Advance(Advance(n, p, a), p, b) == Advance(n, p, a + b)
  {
    if a == 0 {
      assert Advance(n, p, a) == n;
    } else if b > 0 {
      calc {
        Advance(Advance(n, p, a), p, b);
        ((n + a) % p + b) % p;
        { ModAdd(n + a, b, p); }
        (n + a + b) % p;
      }
    }
  }

  /** After a whole period the index is where it was, once it is in range. */
  lemma {:induction false} AdvancePeriodic(n: int, p: int, k: nat)
    requires n >= 0 && p > 0
    requires k > 0 || n < p
    ensures Advance(n, p, k + p) == Advance(n, p, k)
  {
    if k > 0 {
      ModOf(n + k + p, p, (n + k) / p + 1, (n + k) % p);
    } else {
      ModOf(n + p, p, 1, n);
    }
  }

  /** The voice after `k` samples. */
  function After(v: Voice, k: nat): (w: Voice)
    requires Playable(v)
    ensures Playable(w) && w.shape == v.shape && w.period == v.period && w.sine == v.sine
  {
    v.(index := Advance(v.index, v.period, k))
  }

  /** Playing `a` samples and then `b` more is playing `a + b`. */
  lemma AfterAfter(v: Voice, a: nat, b: nat)
    requires Playable(v)
    ensures After(After(v, a), b) == After(v, a + b)
  {
    AdvanceAdd(v.index, v.period, a, b);
  }

  /** The next `k` amplitudes a voice produces. */
  function Samples(v: Voice, k: nat): (s: seq<int>)
    requires Playable(v)
    ensures |s| == k
  {
    seq(k, i requires 0 <= i < k => Level(v.shape, Advance(v.index, v.period, i), v.period, v.sine))
  }

  /** Producing `a + b` samples is producing `a`, then `b` more from where those left off. */
  lemma SamplesAppend(v: Voice, a: nat, b: nat)
    requires Playable(v)
    ensures Samples(v, a + b) == Samples(v, a) + Samples(After(v, a), b)
  {
    var w := After(v, a);
    forall i | 0 <= i < b
      ensures Samples(v, a + b)[a + i] == Samples(w, b)[i]
    {
      AdvanceAdd(v.index, v.period, a, i);
    }
  }

  /** From index 0, a square wave gives p/2 samples at +32767, then p - p/2
      samples at -32767. */
  lemma SquareCycle(v: Voice, k: nat, i: nat)
    requires Playable(v) && v.shape == SQU && v.index == 0
    requires i < k && i < v.period
    ensures Samples(v, k)[i] == (if i < v.period / 2 then SHORT_MAX else -SHORT_MAX)
  {
    ModOf(i, v.period, 0, i);
    SquareLevel(i, v.period, v.sine);
  }

  /** Every waveshape repeats with the period. An index left beyond a
      shortened period is wrapped by the first step, so from the second
      sample on the repetition holds for it too. */
  lemma SamplesPeriodic(v: Voice, k: nat, i: nat)
    requires Playable(v) && (i > 0 || v.index < v.period)
    requires i + v.period < k
    ensures Samples(v, k)[i + v.period] == Samples(v, k)[i]
  {
    AdvancePeriodic(v.index, v.period, i);
  }

  /** After exactly one period from index 0 the index is 0 again. */
  lemma FullCycle(v: Voice)
    requires Playable(v) && v.index == 0
    ensures After(v, v.period).index == 0
  {
    ModOf(v.period, v.period, 1, 0);
  }

  /** The bytes of one buffer: 500 samples, each as a big-endian byte pair. */
  function Render(v: Voice): (bytes: seq<JByte>)
    requires Playable(v)
    ensures |bytes| == BUFFER_SIZE
  {
    Pack(Samples(v, SAMPLES_PER_BUFFER))
  }

  /** A line reading a rendered buffer as big-endian 16-bit samples hears the
      voice's next 500 amplitudes. */
  lemma RenderDecodes(v: Voice)
    requires Playable(v)
    ensures Unpack(Render(v)) == Samples(v, SAMPLES_PER_BUFFER)
  {
    UnpackPack(Samples(v, SAMPLES_PER_BUFFER));
  }

  /** The next `k` buffers of a voice, each starting where the previous ended. */
  function Stream(v: Voice, k: nat): (buffers: seq<seq<JByte>>)
    requires Playable(v)
    ensures |buffers| == k
  {
    if k == 0 then [] else Stream(v, k - 1) + [Render(After(v, SAMPLES_PER_BUFFER * (k - 1)))]
  }

  /** The bytes of all buffers, laid end to end. */
  function Concat(buffers: seq<seq<JByte>>): seq<JByte> {
    if buffers == [] then [] else Concat(buffers[..|buffers| - 1]) + buffers[|buffers| - 1]
  }

  /** Buffer j of a stream is the voice's output after j buffers. */
  lemma {:induction false} StreamAt(v: Voice, k: nat, j: nat)
    requires Playable(v) && j < k
    ensures Stream(v, k)[j] == Render(After(v, SAMPLES_PER_BUFFER * j))
  {
    if j < k - 1 {
      StreamAt(v, k - 1, j);
    }
  }

  /** Laying out one more buffer appends its bytes. */
  lemma ConcatStream(v: Voice, k: nat)
    requires Playable(v) && k > 0
    ensures Concat(Stream(v, k)) == Concat(Stream(v, k - 1)) + Render(After(v, SAMPLES_PER_BUFFER * (k - 1)))
  {
    assert Stream(v, k)[..k - 1] == Stream(v, k - 1);
  }

  /** The packed bytes of two consecutive runs of samples are the packed
      bytes of the whole run. */
  lemma PackSamplesAppend(v: Voice, a: nat, b: nat)
    requires Playable(v)
    ensures Pack(Samples(v, a)) + Pack(Samples(After(v, a), b)) == Pack(Samples(v, a + b))
  {
    PackAppend(Samples(v, a), Samples(After(v, a), b));
    SamplesAppend(v, a, b);
  }

  /** Buffer boundaries do not disturb the phase: `k` buffers laid end to end
      are the packing of `500 k` consecutive samples. */
  lemma {:induction false} StreamContinuous(v: Voice, k: nat)
    requires Playable(v)
    ensures Concat(Stream(v, k)) == Pack(Samples(v, SAMPLES_PER_BUFFER * k))
  {
    if k > 0 {
      var a := SAMPLES_PER_BUFFER * (k - 1);
      assert 0 <= a && a + SAMPLES_PER_BUFFER == SAMPLES_PER_BUFFER * k;
      ConcatStream(v, k);
      StreamContinuous(v, k - 1);
      PackSamplesAppend(v, a, SAMPLES_PER_BUFFER);
    } else {
      assert Samples(v, 0) == [];
    }
  }

  /** The oscillator. `sine` is `Math.sin` applied to 2 PI times its argument. */
  class BasicOscillator {
    var waveshape: Waveshape
    var periodSamples: int
    var sampleNumber: int
    const sine: real -> real

    /** Fields within the ranges of their Java types; the period may be 0
        after a frequency above the sample rate. */
    ghost predicate Valid()
      reads this
    {
      SineLike(sine) && 0 <= periodSamples <= LONG_MAX && 0 <= sampleNumber < LONG_MAX
    }

    /** Able to produce a sample: `getSample` divides by the period. */
    ghost predicate Ready()
      reads this
    {
      Valid() && periodSamples > 0
    }

    function State(): (v: Voice)
      reads this
      ensures Ready() ==> Playable(v)
    {
      Voice(waveshape, periodSamples, sampleNumber, sine)
    }

    /** A fresh oscillator plays SIN at 1000 Hz from index 0. */
    constructor (sine: real -> real)
      requires SineLike(sine)
      ensures Ready() && this.sine == sine
      ensures waveshape == SIN && periodSamples == 22 && sampleNumber == 0
    {
      this.sine := sine;
      waveshape := SIN;
      periodSamples := 0;
      sampleNumber := 0;
      new;
      SetWaveshape(SIN);
      SetFrequency(1000.0);
      DefaultPeriod();
    }

    method SetWaveshape(shape: Waveshape)
      modifies this`waveshape
      ensures waveshape == shape
    {
      waveshape := shape;
    }

    /** Recomputes the period only; the index is left as it is, so a change
        of frequency is a phase jump and not a restart. */
    method SetFrequency(f: real)
      requires Valid() && f > 0.0
      modifies this`periodSamples
      ensures Valid() && periodSamples == Period(f)
      ensures sampleNumber == old(sampleNumber) && waveshape == old(waveshape)
      ensures Ready() <==> f <= SAMPLE_RATE as real
    {
      periodSamples := Period(f);
    }

    /** One waveform value; the index steps by one modulo the period. */
    method GetSample() returns (value: real)
      requires Ready()
      modifies this`sampleNumber
      ensures Ready() && -1.0 <= value <= 1.0
      ensures value == Wave(waveshape, old(sampleNumber), periodSamples, sine)
      ensures sampleNumber == (old(sampleNumber) + 1) % periodSamples
      ensures 0 <= sampleNumber < periodSamples
      ensures State() == After(old(State()), 1)
    {
      value := Wave(waveshape, sampleNumber, periodSamples, sine);
      // sampleNumber < LONG_MAX, so the long addition does not overflow
      sampleNumber := (sampleNumber + 1) % periodSamples;
    }

    /** Fills the first 1000 bytes of `buffer` with the next 500 samples,
        high byte first, and returns the byte count. */
    method GetSamples(buffer: array<JByte>) returns (count: int)
      requires Ready() && buffer.Length >= BUFFER_SIZE
      modifies this`sampleNumber, buffer
      ensures Ready() && count == BUFFER_SIZE
      ensures buffer[..BUFFER_SIZE] == Render(old(State()))
      ensures buffer[BUFFER_SIZE..] == old(buffer[BUFFER_SIZE..])
      ensures sampleNumber == Advance(old(sampleNumber), periodSamples, SAMPLES_PER_BUFFER)
    {
      ghost var v := State();
      ghost var levels := Samples(v, SAMPLES_PER_BUFFER);
      var index := 0;
      for i := 0 to SAMPLES_PER_BUFFER
        invariant Ready() && waveshape == v.shape && periodSamples == v.period
        invariant index == 2 * i
        invariant sampleNumber == Advance(v.index, v.period, i)
        invariant forall j :: 0 <= j < i ==> buffer[2 * j] == HighByte(levels[j]) && buffer[2 * j + 1] == LowByte(levels[j])
        invariant buffer[BUFFER_SIZE..] == old(buffer[BUFFER_SIZE..])
      {
        var value := GetSample();
        var ds := value * SHORT_MAX as real;
        var ss := ToShort(Round(ds));
        AdvanceStep(v.index, v.period, i);
        assert ss == levels[i];
        buffer[index] := HighByte(ss);
        index := index + 1;
        buffer[index] := LowByte(ss);
        index := index + 1;
      }
      PackPointwise(buffer[..BUFFER_SIZE], levels);
      count := BUFFER_SIZE;
    }
  }
}
