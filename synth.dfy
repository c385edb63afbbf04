/** The synthesizer that wires an oscillator to a sample player: it sets the
    oscillator as the player's real provider and starts the player. The
    periodic frequency update is a single step here; scheduling is not. */
module Synth {
  import opened Pcm
  import opened Oscillator
  import opened Player

  class SoftSynth {
    const osc: BasicOscillator
    const player: SamplePlayer

    /** A new synthesizer: a SIN oscillator at the default 1000 Hz, handed to
        a fresh player that is then started; the start succeeds because the
        provider is set first. The first run of the frequency task is a
        separate `Tick`. */
    constructor (sine: real -> real)
      requires SineLike(sine)
      ensures fresh(osc) && fresh(player) && fresh(player.sampleData)
      ensures osc.Ready() && osc.State() == Voice(SIN, 22, 0, sine)
      ensures player.Valid() && player.hasRun && player.realProvider == osc
      ensures player.provider == Priming && player.bufferCount == 0 && player.written == []
    {
      var o := new BasicOscillator(sine);
      o.SetWaveshape(SIN);
      osc := o;
      player := new SamplePlayer();
      new;
      player.SetSampleProvider(osc);
      player.StartPlayer();
    }

    /** The scheduled task: give the oscillator the frequency the supplier
        reports. Only the period changes. */
    method Tick(frequency: real)
      requires osc.Valid() && frequency > 0.0
      modifies osc`periodSamples
      ensures osc.Valid() && osc.periodSamples == Period(frequency)
      ensures osc.sampleNumber == old(osc.sampleNumber) && osc.waveshape == old(osc.waveshape)
      ensures osc.Ready() <==> frequency <= SAMPLE_RATE as real
    {
      osc.SetFrequency(frequency);
    }

    /** Stops the player at its next check. */
    method Stop()
      modifies player`done
      ensures player.done
    {
      player.StopPlayer();
    }
  }

  /** A new synthesizer whose frequency task has run once, with frequency
      `f`, before the player leaves priming; the player thread then completes
      `k` turns and sees the stop request. The task's first run has no delay,
      so it normally comes while the line is being primed. The line receives
      20 buffers of silence, then the tone of period `Period(f)`, buffer after
      buffer, from index 0. */
  method FreshSession(sine: real -> real, f: real, k: nat) returns (synth: SoftSynth)
    requires SineLike(sine) && 0.0 < f <= SAMPLE_RATE as real
    ensures synth.player.written ==
      if k <= TEMP_BUFFER_COUNT then Silences(k)
      else Silences(TEMP_BUFFER_COUNT) + Stream(Voice(SIN, Period(f), 0, sine), k - TEMP_BUFFER_COUNT)
  {
    synth := new SoftSynth(sine);
    synth.Tick(f);
    ghost var v := synth.osc.State();
    assert v == Voice(SIN, Period(f), 0, sine);
    synth.player.Run(true, k);
    PlaybackShape(TEMP_BUFFER_COUNT, v, k);
  }
}
