# Audio recorder: rolling sample buffer and waveform path

A Dafny model of the two pieces of logic in the Audio Recorder app.

- `recorder.dfy`, module `Recorder`: the view model `AudioRecorderViewModel`.
  It keeps a published buffer `audioSamples`, which holds at most the 1000 newest
  microphone samples. A tap on bus 0 of the audio engine's input node feeds it.
  For every delivered buffer, the tap takes the first `frameLength` samples of
  channel 0 and skips buffers that have no float data. On the main queue it
  appends them and then drops the oldest surplus beyond 1000. `ToggleRecording`
  looks at whether the engine is running. If it is, it removes the tap and
  empties the buffer, but never stops the engine. If it is not, it runs the
  engine setup again: install the tap, then try to start the engine, where a
  failure to start is only logged. The engine is represented by two flags,
  `running` and `tapInstalled`. The outcome of each start attempt is the
  parameter `startSucceeds`. A ghost counter `setupRuns` records how often
  setup ran.
- `waveform.dfy`, module `Waveform`: the path that `WaveformView` strokes. The
  pure function `WaveformPath` gives the path for some samples on a
  `width` × `height` canvas. It is empty when there are no samples. Otherwise it
  is a move to `(0, height/2)` and then, for each sample `i` in order, four
  lines to the corners of the sample's rectangle and a close. The corners lie at
  `x = i*step` and `x = i*step + step`, with `step = width/n`, and at
  `y = midY - a` and `y = midY + a`, with `a = samples[i]*height/2`. "Rectangle"
  below names these four corner points, not a closed outline. The method
  `BuildPath` builds the path step by step, as the view's loop does, and is
  proved equal to `WaveformPath`.

Behaviour of the code worth knowing, which the model follows as written:
- There is one buffer, and it holds the raw channel-0 samples.
- Toggling off does not stop the engine. So `running` stays true, and every
  later toggle clears the buffer again instead of restarting.
- Nothing discards a frame that was already queued on the main queue when the
  tap was removed. `StopThenLateFrame` shows such a frame filling the buffer
  again after it was cleared.
- The view draws one group of commands per sample with spacing `width/N`. One
  sample therefore gives a non-empty path of 6 commands.
- No move separates the samples' groups. So, under the usual path semantics,
  every close draws back to the start of the path, `(0, height/2)`, and each
  line after a close starts from there. The figure of a sample is then not a
  closed rectangle: its top edge from `(x+step, midY-a)` to `(x, midY-a)` is
  never drawn.

## Model

| member | source | states |
|---|---|---|
| `Recorder.Newest` | AudioRecorder/AudioRecorderViewModel.swift:37-40 | the retained buffer is a final segment of the appended samples, of length `min(count, 1000)`, so never more than the limit; nothing is dropped when everything fits |
| `Recorder.NewestOfNewest` | AudioRecorder/AudioRecorderViewModel.swift:37-40 | trimming to the newest `n`, appending more and trimming again equals one trim of everything appended |
| `Recorder.AfterFramesKeepsNewest` | AudioRecorder/AudioRecorderViewModel.swift:36-40 | after any series of frames of any sizes, the buffer is exactly the newest 1000 samples of all that arrived (all of them when fewer), in arrival order |
| `Recorder.ChannelZeroSamples` | AudioRecorder/AudioRecorderViewModel.swift:33-35 | a buffer without float channel data yields nothing; otherwise the result has exactly `frameLength` samples, each equal to the same position of channel 0 |
| `Recorder.OnlyChannelZeroIsRead` | AudioRecorder/AudioRecorderViewModel.swift:35 | two buffers that agree on `frameLength` and on channel 0's first `frameLength` samples yield the same samples, whatever their other channels hold |
| `Recorder.AudioRecorderViewModel.constructor` | AudioRecorder/AudioRecorderViewModel.swift:13-17 | a new view model has an empty buffer, has run setup exactly once, has the tap installed, and runs exactly when the start succeeded |
| `Recorder.AudioRecorderViewModel.SetupAudioEngine` | AudioRecorder/AudioRecorderViewModel.swift:28-50 | installs the tap; the engine runs afterwards when it ran before or the start succeeded, and a failed start changes nothing else; the buffer is not in its frame |
| `Recorder.AudioRecorderViewModel.ToggleRecording` | AudioRecorder/AudioRecorderViewModel.swift:19-26 | when running: buffer empty, tap removed, still running, no setup; when not running: buffer unchanged, one more setup, tap installed, running exactly when the start succeeded; the buffer limit is kept |
| `Recorder.AudioRecorderViewModel.OnFrame` | AudioRecorder/AudioRecorderViewModel.swift:36-42 | the buffer becomes the newest 1000 of old buffer followed by the frame, so it never holds more than 1000; when the total fits it is exactly old buffer followed by the frame; only the buffer changes |
| `Recorder.AudioRecorderViewModel.TapCallback` | AudioRecorder/AudioRecorderViewModel.swift:32-43 | a buffer without float channel data leaves the samples unchanged; otherwise the samples become the newest 1000 of old samples followed by channel 0's first `frameLength` values |
| `Recorder.StopThenLateFrame` | AudioRecorder/AudioRecorderViewModel.swift:20-37 | after a frame `y`, toggling the running engine empties the buffer and removes the tap; a frame `x` handled afterwards still lands, leaving exactly `[x]`, no tap, and the engine running |
| `Waveform.Rectangle` | AudioRecorder/WaveformView.swift:27-33 | each sample contributes five commands: four lines to its corners, then a close |
| `Waveform.Rectangles` | AudioRecorder/WaveformView.swift:26-34 | the rectangles of the first `k` samples are exactly `5*k` commands |
| `Waveform.BuildPath` | AudioRecorder/WaveformView.swift:15-35 | the path built command by command equals the path specification `WaveformPath` for the same samples and canvas size |
| `Waveform.RectanglesAt` | AudioRecorder/WaveformView.swift:26-34 | within the rectangles, those of sample `i` are at positions `5*i` to `5*i+4`, so rectangles appear in sample order |
| `Waveform.RectangleInPath` | AudioRecorder/WaveformView.swift:24-34 | the whole path has `1 + 5*n` commands and sample `i`'s rectangle occupies positions `1+5*i` to `1+5*i+4` |
| `Waveform.RectangleCommand` | AudioRecorder/WaveformView.swift:26-33 | the command at position `1+5*i+m` of the path is command `m` of sample `i`'s rectangle |
| `Waveform.PathShape` | AudioRecorder/WaveformView.swift:18-24 | no samples give an empty path; `n > 0` samples give exactly `1 + 5*n` commands, the first a move to `(0, height/2)` |
| `Waveform.SampleRectangle` | AudioRecorder/WaveformView.swift:21-33 | the commands of sample `i` start at position `1+5*i`: lines to `(i*step, midY-a)`, `(i*step, midY+a)`, `(i*step+step, midY+a)`, `(i*step+step, midY-a)`, then a close, with `step = width/n`, `midY = height/2`, `a = samples[i]*height/2` |
| `Waveform.CommandKinds` | AudioRecorder/WaveformView.swift:24-34 | the only move is the first command; after it, a command is a close exactly at every fifth position and a line everywhere else |
| `Waveform.RectangleSymmetric` | AudioRecorder/WaveformView.swift:22-32 | each sample's upper and lower corners lie equally far above and below the mid-line `height/2` |
| `Waveform.RectanglesAdjacent` | AudioRecorder/WaveformView.swift:21-31 | the right edge of sample `i`'s rectangle is the left edge of sample `i+1`'s, exactly |
| `Waveform.RectanglesSpanWidth` | AudioRecorder/WaveformView.swift:21-32 | the first rectangle starts at `x = 0` and the last one ends at `x = width`, exactly |
| `Waveform.RectanglesLeftToRight` | AudioRecorder/WaveformView.swift:26-27 | on a canvas of non-negative width, a later sample's rectangle starts no further left than an earlier one's, and not before the earlier one ends |

## Left out

- `AVAudioEngine`, its input node, the output format, the tap's buffer size
  and the internals of `installTap`, `removeTap` and `start`: foreign
  framework code. They are represented only by the flags `running` and
  `tapInstalled` and by the parameter `startSucceeds`.
- `ToggleRecording` and `SetupAudioEngine`: the model treats a re-setup while
  the engine is stopped as an ordinary one. In the app this path is reachable:
  when the first start fails, the tap stays installed, and the next toggle
  calls `installTap` on the occupied bus. The framework then raises an
  exception. That call is outside the `do`/`catch`, so this failure is not
  swallowed and ends the app. The model does not capture it.
- The hand-off of each frame from the audio thread to the main queue: this is
  concurrency. Each main-queue block is one atomic `OnFrame` step, and the
  model says nothing about how blocks interleave with toggles. `OnFrame` does
  not require a tap to be installed, because a late block can still arrive.
- The log messages for captured frames and for a failed start: output with no
  effect on state.
- The raw memory access to channel 0: a buffer is a frame length plus an
  optional list of channels. `WellFormed` states what the framework
  guarantees: channel 0 exists and holds at least `frameLength` samples.
- What a close draws: `Close` carries no target point. The geometric lemmas
  speak only of the endpoints of the `Line` commands. In the app a close draws
  back to the start of the current subpath, which is `(0, height/2)`
  (`CommandKinds` shows that the first command is the only move).
- Single- and double-precision floating point: samples and coordinates are
  exact reals. Equalities such as "the last rectangle ends at `width`" hold in
  exact arithmetic only.
- The drawing itself: the canvas, the stroke colour and width, the fixed
  height of 100, the background, the preview providers, the theme constants,
  and the content view's button. The button flips its own flag and is not
  connected to the view model.
