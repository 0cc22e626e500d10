/**
 * The recorder's view model: a rolling buffer of the most recent microphone
 * samples, fed by a tap on the audio engine's input node, and a toggle that
 * either removes the tap and empties the buffer (when the engine runs) or
 * sets the engine up again (when it does not).
 *
 * The audio engine is foreign code; it is represented by two flags, whether
 * it is running and whether a tap is installed on the input bus, and the
 * outcome of each attempt to start it is a parameter. Samples are exact reals.
 */
module Recorder {

  datatype Option<T> = None | Some(value: T)

  /** The buffer never keeps more than this many samples. */
  const MaxSamples: nat := 1000

  /**
   * One buffer delivered to the tap: the number of valid frames and, when
   * the buffer holds float samples, one sample array per channel.
   */
  datatype AudioBuffer = AudioBuffer(frameLength: nat, floatChannelData: Option<seq<seq<real>>>)

  /**
   * What the audio framework guarantees of a delivered buffer and the tap
   * relies on when it reads the first channel: a buffer with float data has
   * a first channel, holding at least `frameLength` samples.
   */
  predicate WellFormed(buffer: AudioBuffer)
  {
    buffer.floatChannelData.Some? ==>
      |buffer.floatChannelData.value| > 0 && buffer.frameLength <= |buffer.floatChannelData.value[0]|
  }

  /** `r` is a final segment of `s`. */
  ghost predicate IsSuffix<T>(r: seq<T>, s: seq<T>)
  {
    |r| <= |s| && s[|s| - |r|..] == r
  }

  /** The newest `n` elements of `s`, oldest first; all of `s` when it is shorter. */
  function Newest<T>(s: seq<T>, n: nat): (r: seq<T>)
    ensures |r| <= n
    ensures |r| == if |s| <= n then |s| else n
    ensures IsSuffix(r, s)
  {
    if |s| > n then s[|s| - n..] else s
  }

  /**
   * The samples a tap buffer contributes: nothing when the buffer has no
   * float channel data, otherwise its first `frameLength` samples of
   * channel 0.
   */
  function ChannelZeroSamples(buffer: AudioBuffer): (r: Option<seq<real>>)
    requires WellFormed(buffer)
    ensures r.None? <==> buffer.floatChannelData.None?
    ensures r.Some? ==> |r.value| == buffer.frameLength
    ensures r.Some? ==> forall i :: 0 <= i < |r.value| ==> r.value[i] == buffer.floatChannelData.value[0][i]
  {
    match buffer.floatChannelData
    case None => None
    case Some(channels) => Some(channels[0][..buffer.frameLength])
  }

  /** Channels other than channel 0, and samples past `frameLength`, never influence what the tap takes. */
  lemma OnlyChannelZeroIsRead(a: AudioBuffer, b: AudioBuffer)
    requires WellFormed(a) && WellFormed(b)
    requires a.frameLength == b.frameLength
    requires a.floatChannelData.Some? && b.floatChannelData.Some?
    requires a.floatChannelData.value[0][..a.frameLength] == b.floatChannelData.value[0][..b.frameLength]
    ensures ChannelZeroSamples(a) == ChannelZeroSamples(b)
  {
  }

  /** Evicting to the newest `n` and then appending and evicting again keeps what one eviction of the whole would. */
  lemma NewestOfNewest<T>(s: seq<T>, t: seq<T>, n: nat)
    ensures Newest(Newest(s, n) + t, n) == Newest(s + t, n)
  {
    var u := Newest(s, n);
    if |s| > n {
      assert u + t == (s + t)[|s| - n..];
    }
  }

  /** All batches one after the other. */
  function Concat<T>(batches: seq<seq<T>>): seq<T>
  {
    if batches == [] then [] else Concat(batches[..|batches| - 1]) + batches[|batches| - 1]
  }

  /** The buffer after the frames `batches` arrive, one at a time, starting from `start`. */
  function AfterFrames(start: seq<real>, batches: seq<seq<real>>): seq<real>
  {
    if batches == [] then start
    else Newest(AfterFrames(start, batches[..|batches| - 1]) + batches[|batches| - 1], MaxSamples)
  }

  /**
   * Whatever the sizes of the frames, the buffer holds exactly the newest
   * `MaxSamples` samples of everything that arrived (or all of it, when
   * fewer arrived), in arrival order.
   */
  lemma {:induction false} AfterFramesKeepsNewest(start: seq<real>, batches: seq<seq<real>>)
    requires |start| <= MaxSamples
    ensures AfterFrames(start, batches) == Newest(start + Concat(batches), MaxSamples)
  {
    if batches != [] {
      var init, last := batches[..|batches| - 1], batches[|batches| - 1];
      AfterFramesKeepsNewest(start, init);
      NewestOfNewest(start + Concat(init), last, MaxSamples);
      assert start + Concat(init) + last == start + Concat(batches);
    }
  }

  class AudioRecorderViewModel {
    /** The published rolling buffer of samples, oldest first. */
    var audioSamples: seq<real>
    /** Whether the audio engine is running. */
    var running: bool
    /** Whether a tap is installed on bus 0 of the engine's input node. */
    var tapInstalled: bool
    /** How many times the engine has been set up. */
    ghost var setupRuns: nat

    ghost predicate Valid()
      reads this
    {
      |audioSamples| <= MaxSamples
    }

    /** A new view model starts with an empty buffer and sets the engine up once. */
    constructor (startSucceeds: bool)
      ensures Valid()
      ensures audioSamples == [] && setupRuns == 1
      ensures tapInstalled && running == startSucceeds
    {
      audioSamples := [];
      running := false;
      tapInstalled := false;
      setupRuns := 0;
      new;
      SetupAudioEngine(startSucceeds);
    }

    /**
     * Installs the tap on the input bus and tries to start the engine; a
     * failure to start is only logged, so the engine simply stays as it was.
     * The buffer is not touched.
     */
    method SetupAudioEngine(startSucceeds: bool)
      modifies this`tapInstalled, this`running, this`setupRuns
      ensures tapInstalled
      ensures running == (old(running) || startSucceeds)
      ensures setupRuns == old(setupRuns) + 1
    {
      setupRuns := setupRuns + 1;
      tapInstalled := true;
      if startSucceeds {
        running := true;
      }
    }

    /**
     * When the engine runs, removes the tap and empties the buffer; the
     * engine is never stopped, so it keeps running. Otherwise sets the engine
     * up again, leaving the buffer as it was.
     */
    method ToggleRecording(startSucceeds: bool)
      requires Valid()
      modifies this`audioSamples, this`tapInstalled, this`running, this`setupRuns
      ensures Valid()
      ensures old(running) ==>
        audioSamples == [] && !tapInstalled && running && setupRuns == old(setupRuns)
      ensures !old(running) ==>
        audioSamples == old(audioSamples) && tapInstalled && running == startSucceeds
        && setupRuns == old(setupRuns) + 1
    {
      if running {
        tapInstalled := false;
        audioSamples := [];
      } else {
        SetupAudioEngine(startSucceeds);
      }
    }

    /**
     * The block the tap hands to the main queue: appends the frame's samples
     * and then drops the oldest surplus beyond `MaxSamples`. Nothing else of
     * the view model changes.
     */
    method OnFrame(samples: seq<real>)
      modifies this`audioSamples
      ensures Valid()
      ensures audioSamples == Newest(old(audioSamples) + samples, MaxSamples)
      ensures |old(audioSamples)| + |samples| <= MaxSamples ==> audioSamples == old(audioSamples) + samples
    {
      audioSamples := audioSamples + samples;
      if |audioSamples| > MaxSamples {
        var surplus := |audioSamples| - MaxSamples;
        audioSamples := audioSamples[surplus..];
      }
    }

    /**
     * The tap: a buffer without float channel data is skipped; otherwise the
     * first `frameLength` samples of channel 0 go to the buffer as one frame.
     */
    method TapCallback(buffer: AudioBuffer)
      requires Valid() && WellFormed(buffer)
      modifies this`audioSamples
      ensures Valid()
      ensures buffer.floatChannelData.None? ==> audioSamples == old(audioSamples)
      ensures buffer.floatChannelData.Some? ==>
        audioSamples == Newest(old(audioSamples) + buffer.floatChannelData.value[0][..buffer.frameLength], MaxSamples)
    {
      match ChannelZeroSamples(buffer)
      case None =>
      case Some(samples) =>
        assert samples == buffer.floatChannelData.value[0][..buffer.frameLength];
        OnFrame(samples);
    }
  }

  /**
   * Removing the tap does not discard a frame already queued for the main
   * queue: after a frame `y`, toggling the running engine empties the buffer
   * and removes the tap, yet a frame `x` handled afterwards is kept, while the
   * engine still runs without a tap.
   */
  method StopThenLateFrame(y: real, x: real) returns (samplesAfter: seq<real>, tapAfter: bool, runningAfter: bool)
    ensures samplesAfter == [x] && !tapAfter && runningAfter
  {
    var viewModel := new AudioRecorderViewModel(true);
    viewModel.OnFrame([y]);
    assert viewModel.audioSamples == [y] && viewModel.running;
    viewModel.ToggleRecording(false);
    assert viewModel.audioSamples == [] && !viewModel.tapInstalled && viewModel.running;
    viewModel.OnFrame([x]);
    assert viewModel.audioSamples == [] + [x];
    samplesAfter, tapAfter, runningAfter := viewModel.audioSamples, viewModel.tapInstalled, viewModel.running;
  }
}
