/** The audio format the player demands of its line (22050 Hz, 16-bit signed,
    one channel, big-endian, 1000-byte buffers) and the Java narrowing
    conversions the oscillator uses to produce bytes in that format. */
module Pcm {

  /** Frames per second of the audio line. */
  const SAMPLE_RATE: int := 22050
  /** Bytes handed to the line per iteration of the player loop. */
  const BUFFER_SIZE: int := 1000
  /** 16-bit samples per buffer: `BUFFER_SIZE / 2`. */
  const SAMPLES_PER_BUFFER: int := 500
  /** `Short.MAX_VALUE`, the scale factor of a waveform value. */
  const SHORT_MAX: int := 32767
  /** `Long.MAX_VALUE`, where a `(long)` cast of a large double saturates. */
  const LONG_MAX: int := 0x7FFF_FFFF_FFFF_FFFF

  /** A Java `byte`: a signed 8-bit integer. */
  newtype JByte = x: int | -128 <= x < 128

  /** The range of a Java `short`. */
  predicate IsShort(v: int) {
    -32768 <= v < 32768
  }

  /** Java's narrowing `(byte)` cast: it keeps the low 8 bits, read as two's
      complement. The result is the one byte congruent to `v` modulo 256, so a
      value already in range is left alone. */
  function ToByte(v: int): (b: JByte)
    ensures b as int % 256 == v % 256
  {
    ((v + 128) % 256 - 128) as JByte
  }

  /** The `(byte)` cast leaves a value already in range alone. */
  lemma ToByteInRange(v: int)
    requires -128 <= v < 128
    ensures ToByte(v) as int == v
  {
  }

  /** Java's narrowing `(short)` cast: it keeps the low 16 bits, read as two's
      complement, and leaves a value already in range alone. */
  function ToShort(v: int): (s: int)
    ensures IsShort(s)
    ensures s % 65536 == v % 65536
    ensures IsShort(v) ==> s == v
  {
    (v + 32768) % 65536 - 32768
  }

  /** `Math.round` of a double: the nearest integer, halves rounded up. */
  function Round(x: real): (r: int)
    ensures x - 0.5 < r as real <= x + 0.5
  {
    (x + 0.5).Floor
  }

  /** `(short) Math.round(v * Short.MAX_VALUE)`: a waveform value in [-1, 1]
      becomes a 16-bit amplitude without wrapping. */
  function Amplitude(v: real): (s: int)
    ensures IsShort(s)
    ensures -1.0 <= v <= 1.0 ==> -SHORT_MAX <= s <= SHORT_MAX && s == Round(v * SHORT_MAX as real)
  {
    ToShort(Round(v * SHORT_MAX as real))
  }

  /** Full scale, silence and negative full scale map to 32767, 0 and -32767. */
  lemma AmplitudeExtremes()
    ensures Amplitude(1.0) == SHORT_MAX
    ensures Amplitude(0.0) == 0
    ensures Amplitude(-1.0) == -SHORT_MAX
  {
  }

  /** `(byte) (ss >> 8)`: the arithmetic shift is division rounding down.
      Of a short it is the high byte, which the cast leaves unwrapped: `s`
      lies in the 256 values starting at `256 * hi`. */
  function HighByte(s: int): (hi: JByte)
    ensures IsShort(s) ==> hi as int * 256 <= s < hi as int * 256 + 256
  {
    ToByte(s / 256)
  }

  /** `(byte) (ss & 0xFF)`: the mask keeps the two's-complement low 8 bits. */
  function LowByte(s: int): (lo: JByte)
    ensures lo as int % 256 == s % 256
  {
    ToByte(s % 256)
  }

  /** How the line reads a big-endian signed 16-bit sample from two bytes. */
  function Decode16(hi: JByte, lo: JByte): (s: int)
    ensures IsShort(s)
  {
    hi as int * 256 + lo as int % 256
  }

  /** Splitting a short into its high and low byte loses nothing. */
  lemma SplitJoin(s: int)
    requires IsShort(s)
    ensures Decode16(HighByte(s), LowByte(s)) == s
  {
    assert HighByte(s) as int == s / 256;
    assert LowByte(s) as int % 256 == s % 256;
  }

  /** Every byte pair is the split of the sample it decodes to. */
  lemma JoinSplit(hi: JByte, lo: JByte)
    ensures HighByte(Decode16(hi, lo)) == hi && LowByte(Decode16(hi, lo)) == lo
  {
    var r := lo as int % 256;
    var s := hi as int * 256 + r;
    assert s / 256 == hi as int && s % 256 == r;
    ToByteInRange(hi as int);
    assert ToByte(r) == lo;
  }

  /** The bytes of a run of samples: sample i becomes bytes 2i (high) and 2i+1 (low). */
  function Pack(samples: seq<int>): (bytes: seq<JByte>)
    ensures |bytes| == 2 * |samples|
  {
    if samples == [] then []
    else
      var k := |samples| - 1;
      Pack(samples[..k]) + [HighByte(samples[k]), LowByte(samples[k])]
  }

  /** The samples the line reads back from a run of bytes. */
  function Unpack(bytes: seq<JByte>): (samples: seq<int>)
    requires |bytes| % 2 == 0
    ensures |samples| == |bytes| / 2
    ensures forall i :: 0 <= i < |samples| ==> IsShort(samples[i])
  {
    if bytes == [] then []
    else
      var k := |bytes| - 2;
      Unpack(bytes[..k]) + [Decode16(bytes[k], bytes[k + 1])]
  }

  /** Sample i of a packed run sits at bytes 2i and 2i+1, high byte first. */
  lemma {:induction false} PackAt(samples: seq<int>, i: int)
    requires 0 <= i < |samples|
    ensures Pack(samples)[2 * i] == HighByte(samples[i])
    ensures Pack(samples)[2 * i + 1] == LowByte(samples[i])
  {
    var k := |samples| - 1;
    if i < k {
      PackAt(samples[..k], i);
    }
  }

  /** A byte run holding each sample's high and low byte at 2i and 2i+1 is the packing of the samples. */
  lemma {:induction false} PackPointwise(bytes: seq<JByte>, samples: seq<int>)
    requires |bytes| == 2 * |samples|
    requires forall j :: 0 <= j < |samples| ==> bytes[2 * j] == HighByte(samples[j]) && bytes[2 * j + 1] == LowByte(samples[j])
    ensures bytes == Pack(samples)
  {
    if samples != [] {
      var k := |samples| - 1;
      PackPointwise(bytes[..2 * k], samples[..k]);
      assert bytes == bytes[..2 * k] + [bytes[2 * k], bytes[2 * k + 1]];
    }
  }

  /** Packing distributes over concatenation. */
  lemma {:induction false} PackAppend(a: seq<int>, b: seq<int>)
    ensures Pack(a + b) == Pack(a) + Pack(b)
  {
    if b == [] {
      assert a + b == a;
    } else {
      var k := |b| - 1;
      assert (a + b)[..|a + b| - 1] == a + b[..k];
      PackAppend(a, b[..k]);
    }
  }

  /** Reading back packed 16-bit samples gives the samples. */
  lemma {:induction false} UnpackPack(samples: seq<int>)
    requires forall i :: 0 <= i < |samples| ==> IsShort(samples[i])
    ensures Unpack(Pack(samples)) == samples
  {
    if samples != [] {
      var k := |samples| - 1;
      var bytes := Pack(samples);
      assert |bytes| == 2 * k + 2 && |bytes| % 2 == 0;
      var init, last := samples[..k], samples[k];
      assert samples == init + [last];
      assert bytes == Pack(init) + [HighByte(last), LowByte(last)];
      assert bytes[..2 * k] == Pack(init);
      UnpackPack(init);
      SplitJoin(last);
      calc {
        Unpack(bytes);
        Unpack(bytes[..2 * k]) + [Decode16(bytes[2 * k], bytes[2 * k + 1])];
        init + [Decode16(HighByte(last), LowByte(last))];
        init + [last];
      }
    }
  }
}
