/** The sample player: a loop that pulls 1000-byte buffers from a sample
    provider and writes them to the audio line. It primes the line with
    silence by acting as its own provider for the first 20 buffers, then hands
    over to the real provider (an oscillator). */
module Player {
  import opened Pcm
  import opened Oscillator

  /** Buffers of silence written before switching to the real provider. */
  const TEMP_BUFFER_COUNT: int := 20

  /** Who `provider` refers to: the player itself while priming, or whatever
      `realProvider` held at the switch (possibly nothing). */
  datatype Provider = Priming | Real(osc: BasicOscillator?)

  /** One buffer of silence: the zero-filled sample array. */
  function Silence(): (bytes: seq<JByte>)
    ensures |bytes| == BUFFER_SIZE
  {
    seq(BUFFER_SIZE, _ => 0 as JByte)
  }

  /** `k` buffers of silence. */
  function Silences(k: nat): (buffers: seq<seq<JByte>>)
    ensures |buffers| == k
  {
    seq(k, _ => Silence())
  }

  /** What the loop writes to the line in turn `j` (counting from 0) when
      `left` priming buffers remained at the start and the real provider then
      stood at voice `v`: silence while priming, then the provider's buffers
      one after another. */
  function TurnOutput(left: nat, v: Voice, j: nat): (bytes: seq<JByte>)
    requires Playable(v)
    ensures |bytes| == BUFFER_SIZE
  {
    if j < left then Silence() else Render(After(v, SAMPLES_PER_BUFFER * (j - left)))
  }

  /** What the line receives in `k` turns of the loop, turn by turn. */
  function Playback(left: nat, v: Voice, k: nat): (buffers: seq<seq<JByte>>)
    requires Playable(v)
    ensures |buffers| == k
    ensures forall j :: 0 <= j < k ==> |buffers[j]| == BUFFER_SIZE
  {
    if k == 0 then [] else Playback(left, v, k - 1) + [TurnOutput(left, v, k - 1)]
  }

  /** A playback is the priming silence followed by the oscillator's stream
      from where it stood. */
  lemma {:induction false} PlaybackShape(left: nat, v: Voice, k: nat)
    requires Playable(v)
    ensures Playback(left, v, k) == if k <= left then Silences(k) else Silences(left) + Stream(v, k - left)
  {
    if k > 0 {
      PlaybackShape(left, v, k - 1);
      if k <= left {
        assert Silences(k) == Silences(k - 1) + [Silence()];
      } else if k - 1 == left {
        assert Stream(v, 1) == [Render(After(v, 0))];
      } else {
        var s, t := Silences(left), Stream(v, k - 1 - left);
        var b := Render(After(v, SAMPLES_PER_BUFFER * (k - 1 - left)));
        assert (s + t) + [b] == s + (t + [b]);
      }
    }
  }

  /** Buffer `j` of a playback of `k` turns is silence while priming, then
      the oscillator's output from where it stood, buffer after buffer. */
  lemma PlaybackAt(left: nat, v: Voice, k: nat, j: nat)
    requires Playable(v) && j < k
    ensures |Playback(left, v, k)| == k
    ensures j < left ==> Playback(left, v, k)[j] == Silence()
    ensures j >= left ==> Playback(left, v, k)[j] == Render(After(v, SAMPLES_PER_BUFFER * (j - left)))
  {
    PlaybackShape(left, v, k);
    if k > left && left <= j {
      StreamAt(v, k - left, j - left);
    }
  }

  class SamplePlayer {
    var hasRun: bool
    var done: bool
    var bufferCount: int
    const sampleData: array<JByte>
    var provider: Provider
    var realProvider: BasicOscillator?
    /** The audio line: every buffer written to it, in order. */
    ghost var written: seq<seq<JByte>>

    /** The sample array has one buffer's length and stays zero-filled until
        the real provider takes over, which happens at the 20th buffer. */
    ghost predicate Valid()
      reads this`bufferCount, this`provider, sampleData
    {
      sampleData.Length == BUFFER_SIZE && bufferCount >= 0 &&
      (provider.Priming? ==> bufferCount < TEMP_BUFFER_COUNT && sampleData[..] == Silence())
    }

    /** Priming buffers still to come. */
    function PrimingLeft(): (n: nat)
      reads this`bufferCount, this`provider
      requires bufferCount >= 0
      ensures provider.Priming? && bufferCount < TEMP_BUFFER_COUNT ==> n + bufferCount == TEMP_BUFFER_COUNT
      ensures provider.Real? ==> n == 0
    {
      if provider.Priming? && bufferCount < TEMP_BUFFER_COUNT then TEMP_BUFFER_COUNT - bufferCount else 0
    }

    /** The oscillator the loop will pull from once priming is over. */
    function Next(): BasicOscillator?
      reads this`provider, this`realProvider
    {
      if provider.Priming? then realProvider else provider.osc
    }

    /** A new player: not run, priming with a zero-filled array and no real provider. */
    constructor ()
      ensures Valid() && fresh(sampleData)
      ensures !hasRun && !done && bufferCount == 0 && provider == Priming && realProvider == null
      ensures written == []
    {
      hasRun := false;
      done := false;
      bufferCount := 0;
      sampleData := new JByte[BUFFER_SIZE](_ => 0);
      provider := Priming;
      realProvider := null;
      written := [];
    }

    /** The player as its own provider: counts a buffer, leaves the buffer
        as it is and, from the 20th call on, hands over to the real provider. */
    method GetSamples(buffer: array<JByte>) returns (count: int)
      modifies this`bufferCount, this`provider
      ensures count == BUFFER_SIZE && bufferCount == old(bufferCount) + 1
      ensures provider == if bufferCount >= TEMP_BUFFER_COUNT then Real(realProvider) else old(provider)
    {
      bufferCount := bufferCount + 1;
      if bufferCount >= TEMP_BUFFER_COUNT {
        provider := Real(realProvider);
      }
      count := BUFFER_SIZE;
    }

    /** `provider.getSamples(sampleData)`: the call the loop makes, dispatched
        on who the provider is. */
    method Pull() returns (nBytesRead: int)
      requires Valid() && Next() != null && Next().Ready()
      modifies this`bufferCount, this`provider, sampleData, Next()
      ensures Valid() && Next() == old(Next()) && Next().Ready() && nBytesRead == BUFFER_SIZE
      ensures old(provider).Priming? ==>
        sampleData[..] == Silence() && Next().State() == old(Next().State()) &&
        bufferCount == old(bufferCount) + 1 &&
        provider == (if bufferCount >= TEMP_BUFFER_COUNT then Real(realProvider) else Priming)
      ensures old(provider).Real? ==>
        sampleData[..] == Render(old(Next().State())) &&
        Next().State() == After(old(Next().State()), SAMPLES_PER_BUFFER) &&
        provider == old(provider) && bufferCount == old(bufferCount)
    {
      match provider {
        case Priming =>
          nBytesRead := GetSamples(sampleData);
        case Real(p) =>
          nBytesRead := p.GetSamples(sampleData);
      }
    }

    /** What the loop keeps after `i` turns when it started with `left`
        priming buffers to go and the real provider `o` at voice `v`: the
        player is still priming or has handed over to `o`, as the count says,
        and `o` stands where the first `i` buffers of the playback leave it. */
    ghost predicate Playing(left: nat, v: Voice, o: BasicOscillator, i: nat)
      reads this`bufferCount, this`provider, this`realProvider, sampleData, o
      requires Playable(v)
    {
      Valid() && Next() == o && o.Ready() &&
      (i < left ==> provider.Priming? && bufferCount + left == TEMP_BUFFER_COUNT + i) &&
      (i >= left ==> provider.Real?) &&
      o.State() == After(v, SAMPLES_PER_BUFFER * (if i < left then 0 else i - left))
    }

    /** One turn of the loop: pull a buffer from the provider and write the
        bytes it reports to the line. */
    method PlayBuffer(ghost left: nat, ghost v: Voice, ghost o: BasicOscillator, ghost i: nat, ghost start: seq<seq<JByte>>) returns (nBytesRead: int)
      requires Playable(v) && Playing(left, v, o, i) && written == start + Playback(left, v, i)
      modifies this`written, this`bufferCount, this`provider, sampleData, o
      ensures nBytesRead == BUFFER_SIZE && Playing(left, v, o, i + 1)
      ensures written == start + Playback(left, v, i + 1)
    {
      ghost var played := SAMPLES_PER_BUFFER * (if i < left then 0 else i - left);
      nBytesRead := Pull();
      assert sampleData[..nBytesRead] == sampleData[..];
      if nBytesRead > 0 {
        written := written + [sampleData[..nBytesRead]];
      }
      assert written == start + (Playback(left, v, i) + [TurnOutput(left, v, i)]);
      if i >= left {
        AfterAfter(v, played, SAMPLES_PER_BUFFER);
        assert played + SAMPLES_PER_BUFFER == SAMPLES_PER_BUFFER * (i + 1 - left);
      }
    }

    /** The loop of the player thread: it turns until it sees the stop
        request, which comes after `stopAfter` turns. */
    method Play(stopAfter: nat, ghost left: nat, ghost v: Voice, ghost o: BasicOscillator)
      requires Playable(v) && Playing(left, v, o, 0) && (done <==> stopAfter == 0)
      modifies this`done, this`written, this`bufferCount, this`provider, sampleData, o
      ensures done && Playing(left, v, o, stopAfter)
      ensures written == old(written) + Playback(left, v, stopAfter)
    {
      var nBytesRead := 0;
      var i := 0;
      while nBytesRead != -1 && !done
        invariant 0 <= i <= stopAfter && (done <==> i == stopAfter) && nBytesRead != -1
        invariant Playing(left, v, o, i)
        invariant written == old(written) + Playback(left, v, i)
        decreases stopAfter - i
      {
        nBytesRead := PlayBuffer(left, v, o, i, old(written));
        i := i + 1;
        // the controlling thread's stop request, seen at the loop test
        done := i == stopAfter;
      }
    }

    /** The player thread's body. `lineOpens` says whether the audio line could
        be obtained and opened; `stopAfter` is the number of turns the loop
        completes before it sees the stop request of the controlling thread. */
    method Run(lineOpens: bool, stopAfter: nat)
      requires Valid() && Next() != null && Next().Ready()
      modifies this`done, this`written, this`bufferCount, this`provider, sampleData, Next()
      ensures Valid() && Next() == old(Next()) && Next().Ready() && done == lineOpens
      ensures !lineOpens ==>
        written == old(written) && bufferCount == old(bufferCount) && provider == old(provider) &&
        sampleData[..] == old(sampleData[..])
      ensures lineOpens ==> written == old(written) + Playback(old(PrimingLeft()), old(Next().State()), stopAfter)
      ensures !lineOpens ==> Next().State() == old(Next().State()) && PrimingLeft() == old(PrimingLeft())
      ensures lineOpens ==>
        Next().State() ==
          After(old(Next().State()), SAMPLES_PER_BUFFER * (if stopAfter >= old(PrimingLeft()) then stopAfter - old(PrimingLeft()) else 0))
      ensures lineOpens ==>
        PrimingLeft() == if stopAfter < old(PrimingLeft()) then old(PrimingLeft()) - stopAfter else 0
    {
      ghost var left, o := PrimingLeft(), Next();
      ghost var v := o.State();
      done := false;
      if !lineOpens {
        return;
      }
      if stopAfter == 0 {
        StopPlayer();
      }
      Play(stopAfter, left, v, o);
    }

    /** Starts the player thread once, and only with a real provider set;
        a second start is refused. */
    method StartPlayer()
      modifies this`hasRun
      ensures hasRun == (old(hasRun) || realProvider != null)
    {
      if hasRun {
        return;
      }
      if realProvider != null {
        hasRun := true;
      }
    }

    /** Asks the loop to stop at its next check. */
    method StopPlayer()
      modifies this`done
      ensures done
    {
      done := true;
    }

    method SetSampleProvider(p: BasicOscillator?)
      modifies this`realProvider
      ensures realProvider == p
    {
      realProvider := p;
    }
  }
}
