# Grabadora recorder: session state machine, handlers and audio callbacks

Grabadora is a small wx desktop recorder. The user starts **monitoring**: the
microphone is played back live. From monitoring, the user starts a
**recording**. Each recording goes to a time-stamped `.wav` file, can be paused
and resumed, and is exported to MP3 when FFmpeg is installed. The controller,
`GUI` in `grabadora.py`, is a five-state machine: `idle`, `monitoring`,
`recording`, `pause_rec` and `error`. Its button handlers open and close two
PyAudio streams, a WAV file, a wx timer and an elapsed-time clock that does not
count paused time. Two PyAudio callbacks run on the audio thread. They apply the
gain slider to each int16 block and clip it, measure the peak level, and either
play the block back or append it to the WAV file.

The model has two layers.

- **Values.** These are the modules `Fsm`, `Names`, `Gain` and `Display`:
  - a `Session` datatype with one field per piece of controller state;
  - one function per handler and per callback, each built from small step
    functions that follow the handler's blocks;
  - an invariant `Inv` that every handler and callback keeps.
  
  `SessionProps` holds the lemmas about these functions:
  - the transition table;
  - invalid commands;
  - the error trap;
  - sink-before-stream in every reachable state;
  - the pause-safe clock;
  - what the callbacks write.
- **Objects.** In module `Grabadora`:
  - class `Gui` has the controller's fields; its handler methods update them
    step by step;
  - class `AudioCallback` has a `const instance: Gui` and updates that
    object's meter and WAV fields.
  
  Each method is proved to leave exactly the state the matching `Fsm` function
  gives. Each handler method and each callback is also proved to keep `Inv`.

I/O is a parameter:
- a `Fault` argument names the first step that raises during a handler call:
  opening or starting a stream, `wave.open`, or the MP3 export;
- monotonic time is a `now` argument in integer milliseconds;
- the wall-clock time for the default name is a `Stamp` argument.

The model follows the code as written, including where it departs from the
usual recorder design:
- the default gain after `onMonitor` is 2.0;
- the monitor stream keeps running during a recording;
- a capture stream that fails to open leaves the WAV file open in `error`;
- nothing leaves `error`.

## Model

| member | source | states |
|---|---|---|
| Fsm.Initial | grabadora.py:147-170 | start-up leaves `idle` with no stream, no file, no timer, a stopped clock at 0 and gain 2.0, and satisfies `Inv` |
| Fsm.OnMonitor | grabadora.py:224-334 | `onMonitor` as a function of the session; every result satisfies `Inv`, the invariant tying each state to its streams, file and clock |
| Fsm.OnStartRec | grabadora.py:336-434 | `onStartRec` (start, pause or resume) keeps `Inv` |
| Fsm.OnStopRec | grabadora.py:436-521 | `onStopRec` keeps `Inv` |
| Fsm.OnGainChange | grabadora.py:537-552 | a slider move only changes the gain and keeps `Inv` |
| Fsm.OnAudioNameUpdate | grabadora.py:207-222 | a name edit keeps `Inv` in every state |
| Fsm.MonitorCallback | grabadora.py:646-687 | a monitor block only sets the meter and keeps `Inv` |
| Fsm.RecordCallback | grabadora.py:690-736 | a record block, delivered while the file is open, keeps `Inv` |
| Fsm.Elapsed | grabadora.py:523-535 | a stopped clock reads the accumulated time; a running clock started no later than now reads at least that much |
| Fsm.OfferDefaultName | grabadora.py:244-249 | the offered name ends in `.wav` and is the field's text plus `.wav`; only the name and the field change |
| Fsm.StartMonitoring | grabadora.py:262-287 | monitoring is reached exactly when neither the open nor the start of the stream fails, with the stream running, the timer created and gain 2.0; on failure the state is `error`, timer and gain untouched, and a failed open adds no stream; only the stream, timer, gain and state change |
| Fsm.StopMonitoring | grabadora.py:289-314 | the state is `idle`, the monitor stream is gone, the timer and its start time are dropped and the field is cleared; nothing else changes |
| Fsm.StartClock | grabadora.py:383-385 | the clock runs from now, and `elapsed()` at that instant equals the accumulated time; nothing else changes |
| Fsm.StartRecording | grabadora.py:363-367 | a failed `wave.open` only moves to `error`; otherwise the WAV file is open and empty; the result is recording or `error`, and when recording both the stream and the clock run and `elapsed()` reads 0 |
| Fsm.OpenCaptureStream | grabadora.py:369-389 | recording is reached exactly when neither the open nor the start fails, with the stream and the clock running from zero; on failure the state is `error` with the clock as it was, and a failed open adds no stream; only the stream, clock and state change |
| Fsm.ResumeRecording | grabadora.py:406-418 | a failed restart only moves to `error`; otherwise the stream and the clock run again and `elapsed()` continues from the accumulated time; only the stream, clock and state change |
| Fsm.CloseCapture | grabadora.py:458-466 | the capture stream is gone and the WAV file closed; the samples written and everything else stay |
| Fsm.ExportRaises | grabadora.py:474-487 | the export can raise only when FFmpeg was found |
| Fsm.LockName | grabadora.py:358-361 | the name locked at the start of a recording always ends in `.wav`, and nothing else changes |
| Fsm.StopClock | grabadora.py:399-402 | closing the clock banks the running interval: the accumulated time becomes `elapsed()` at that instant and the clock stops; nothing else changes |
| Fsm.Apply | GrabadoraGUIFrame.py:187-192 | any button, slider, name or audio event keeps `Inv` |
| Fsm.Run | GrabadoraGUIFrame.py:187-192 | any sequence of events keeps `Inv` |
| SessionProps.MonitorFromIdle | grabadora.py:240-287 | from idle, monitoring starts with the monitor stream running, the timer created, gain 2.0 and the default name offered, its base in the field; the field's text made a `.wav` name is the offered name again |
| SessionProps.MonitorFromIdleFails | grabadora.py:262-280 | a monitor stream that fails to open stays absent, and one that fails to start stays open but stopped; both go to `error`, with timer and gain untouched |
| SessionProps.MonitorToIdle | grabadora.py:289-314 | from monitoring, the stream is closed, the timer and start time are dropped, the field is cleared, and the state is `idle` |
| SessionProps.MonitorInvalid | grabadora.py:236-238 | in any other state the handler catches its own ValueError: the state becomes `error` and nothing else changes |
| SessionProps.StartRecFromMonitoring | grabadora.py:351-389 | the name is locked as a `.wav` name in the audio directory, the WAV file opens empty, the capture stream runs beside the monitor stream, and `elapsed()` counts from zero at that instant |
| SessionProps.StartRecFailures | grabadora.py:364-380 | a failed `wave.open` leaves no file; a capture stream that fails to open, or opens but fails to start, leaves the file open; every failure goes to `error` with the clock stopped |
| SessionProps.PauseFreezes | grabadora.py:391-404 | a pause stops the capture stream, keeps the file and its samples, and freezes `elapsed()` at its value at the pause |
| SessionProps.ResumeContinues | grabadora.py:406-418 | a resume restarts the stream, and `elapsed()` continues from the frozen value |
| SessionProps.ResumeFails | grabadora.py:408 | a capture stream that fails to restart only moves the session to `error` |
| SessionProps.StartRecInvalid | grabadora.py:347-348 | outside monitoring, recording and pause_rec the handler raises before its `try`: nothing changes |
| SessionProps.StopRecToMonitoring | grabadora.py:456-514 | a stop closes the stream and the file, keeps `wavFrames` as the samples written to the closed file (and exported from it when FFmpeg was found, after which the WAV file is deleted), banks the clock at `elapsed()`, and returns to monitoring; the fresh default name is offered, with its base in the field |
| SessionProps.StopRecExportFails | grabadora.py:474-487 | a failed export goes to `error` after the stream, the file and the clock have been closed, and keeps the WAV name |
| SessionProps.StopRecInvalid | grabadora.py:450-451 | outside recording and pause_rec the handler raises before its `try`: nothing changes |
| SessionProps.ErrorIsFinal | grabadora.py:236-238 | no handler and no callback leaves `error` |
| SessionProps.RunFromErrorStaysError | grabadora.py:236-238 | no sequence of events leaves `error` |
| SessionProps.Reachable | grabadora.py:364-380 | in every reachable state, `error` included, a capture stream exists only while the WAV file is open; while recording, both streams run; outside `error`, the clock runs exactly while recording |
| SessionProps.PauseResumeAccumulates | grabadora.py:523-535 | start at t0, pause at t1, resume at t2, stop at t3: the recorded time is (t1-t0)+(t3-t2) |
| SessionProps.ElapsedFrozen | grabadora.py:523-535 | while the clock is stopped, `elapsed()` reads the same at any time |
| SessionProps.ElapsedNonDecreasing | grabadora.py:523-535 | `elapsed()` never decreases as time goes on |
| SessionProps.MonitorKeepsClockSane | grabadora.py:298-302 | `onMonitor` keeps the clock's accumulated time non-negative and its start time in the past |
| SessionProps.StartRecKeepsClockSane | grabadora.py:382-418 | `onStartRec` keeps the clock sane |
| SessionProps.StopRecKeepsClockSane | grabadora.py:468-472 | `onStopRec` keeps the clock sane |
| SessionProps.ApplyKeepsClockSane | grabadora.py:523-535 | any event at a time no earlier than the last keeps the clock sane |
| SessionProps.RunKeepsClockSane | grabadora.py:523-535 | with timestamps that never go back, any run keeps the clock sane |
| SessionProps.ElapsedNeverNegative | grabadora.py:523-535 | with a monotonic time source, `elapsed()` is never negative in any reachable state |
| SessionProps.RecordBlockAppends | grabadora.py:690-736 | a block delivered while capturing grows the WAV file by exactly the processed block, of the same length, and sets the meter; nothing else changes |
| SessionProps.PausedWritesNothing | grabadora.py:393 | while paused, the capture stream is stopped and no block reaches the file |
| SessionProps.MonitorBlockPlaysBack | grabadora.py:646-687 | the monitor path plays back the processed block, of the same length, and only sets the meter |
| Names.EnsureWav | grabadora.py:218-220 | the result ends in `.wav`; a name that already does is kept, any other gets `.wav` appended |
| Names.EnsureWavIdempotent | grabadora.py:359-360 | applying the `.wav` rule twice changes nothing more |
| Names.JoinPath | grabadora.py:361 | joining the audio directory keeps the `.wav` ending |
| Names.LastIndexOf | grabadora.py:248 | the index found holds the character, no later index does, and none is found only when the character is absent |
| Names.RSplitDot | grabadora.py:248 | the split fails only when there is no dot; otherwise base + "." + extension is the input and the extension holds no dot |
| Names.RSplitOfJoin | grabadora.py:248 | splitting base + "." + ext gives back base and ext whenever ext has no dot |
| Names.Mp3Name | grabadora.py:479-481 | a derived MP3 name ends in `.mp3` |
| Names.Mp3NameOfWav | grabadora.py:479-481 | for a `.wav` path the split never raises, and the MP3 name is the path with `.wav` replaced by `.mp3` |
| Names.Digits | grabadora.py:247 | a zero-padded field has exactly its width in decimal digits |
| Names.DigitsRoundTrip | grabadora.py:247 | the padded digits read back as the number |
| Names.DigitsInjective | grabadora.py:247 | equal padded fields of one width hold equal numbers |
| Names.DefaultName | grabadora.py:247 | the default name is 29 characters long and ends in `.wav` |
| Names.DefaultBaseHasNoDot | grabadora.py:247 | the default name without `.wav` is 25 characters long and holds no dot |
| Names.DefaultNameSplit | grabadora.py:247-249 | the default name splits at its last dot into the base shown in the field and "wav", so the unpacking never raises; that base with the `.wav` rule applied is the name again |
| Names.DefaultNameInjective | grabadora.py:247 | two different instants, to the second, never produce the same default name |
| Gain.TruncDiv10 | grabadora.py:672 | the int16 cast rounds toward zero: the result keeps the sign and loses less than one unit |
| Gain.ScaleSample | grabadora.py:672 | the scaled sample has the product's sign and never exceeds it in magnitude; inside the int16 range it is within one unit of the product |
| Gain.TruncReal | grabadora.py:672 | the reference cast over the reals rounds toward zero, losing less than one |
| Gain.ClipReal | grabadora.py:672 | the reference clip stays within [-32768, 32767] and leaves a value inside that range unchanged |
| Gain.Amplify | grabadora.py:672 | the processed block has the input's length, and each sample is the input sample scaled |
| Gain.ScaleSampleIsClipThenTruncate | grabadora.py:672 | each sample is exactly "multiply by the gain, clip to [-32768, 32767], truncate toward zero", evaluated over the reals |
| Gain.UnityGain | grabadora.py:672 | a gain of 1.0 leaves every block unchanged |
| Gain.ScaleSampleMonotone | grabadora.py:672 | a larger input sample never gives a smaller output sample |
| Gain.Int16Abs | grabadora.py:676 | the int16 absolute value is the true one, except that -32768 wraps to itself |
| Gain.PeakAbs | grabadora.py:676 | the peak is at least every sample's int16 absolute value and equals one of them |
| Gain.PeakLevelOf | grabadora.py:678-682 | a logged peak is positive and at most 32767; otherwise the meter reads the silence sentinel |
| Gain.PeakSilentIff | grabadora.py:676-682 | the meter reads silence exactly when every processed sample is 0 or -32768 |
| Gain.PeakLoudIsMax | grabadora.py:676-680 | any sample with a positive absolute value makes the meter log a peak at least that large |
| Gain.NegativeRailReadsAsSilence | grabadora.py:672-682 | as written, -20000 at gain 2.0 clips to -32768, and the meter then reads silence |
| Display.SplitTime | grabadora.py:576-580 | minutes and seconds lie in [0, 60), and milliseconds in (-1000, 1000) |
| Display.TruncRem | grabadora.py:580 | the fractional part taken by `int()` has the sign of the time and lies strictly within one unit |
| Display.SplitTimeRoundTrip | grabadora.py:576-580 | for a non-negative time, the hours and milliseconds are non-negative and the four fields recompose to the time |
| Display.NegativeSplit | grabadora.py:576-580 | a negative time of -1.5 s shows -1 h 59 min 58 s -500 ms |
| Display.MapDbToGauge | grabadora.py:590-613 | the gauge lies in [0, 100], reads 0 below -60 dB and reads 100 above 0 dB |
| Display.MapDbToGaugeMonotone | grabadora.py:590-613 | a louder peak never moves the gauge down |
| Display.MapDbToGaugeEnds | grabadora.py:603-613 | -60 dB reads 0, 0 dB reads 100 and the silence sentinel -100 dB reads 0 |
| Grabadora.Gui.constructor | grabadora.py:132-182 | the new object holds `Fsm.Initial` for its audio directory and FFmpeg flag, and is valid |
| Grabadora.Gui.OnAudioNameUpdate | grabadora.py:207-222 | the fields change as `Fsm.OnAudioNameUpdate` says; the object stays valid and the output name ends in `.wav` |
| Grabadora.Gui.OnGainChange | grabadora.py:537-552 | the fields change as `Fsm.OnGainChange` says, and the object stays valid |
| Grabadora.Gui.OfferDefaultName | grabadora.py:244-249 | after the split and the unpacking, which is proved never to raise, the fields hold the default name and its base |
| Grabadora.Gui.StartMonitoring | grabadora.py:262-287 | opening and starting the monitor stream, creating the timer and resetting the gain change the fields as `Fsm.StartMonitoring` says, failures included |
| Grabadora.Gui.StopMonitoring | grabadora.py:289-314 | closing the stream, dropping the timer and clearing the field change the fields as `Fsm.StopMonitoring` says |
| Grabadora.Gui.LockName | grabadora.py:358-361 | the locked name is the one `Fsm.LockName` gives |
| Grabadora.Gui.StopClock | grabadora.py:468-472 | the clock fields change as `Fsm.StopClock` says |
| Grabadora.Gui.StartRecording | grabadora.py:363-367 | opening the WAV file, or failing to, changes the fields as `Fsm.StartRecording` says |
| Grabadora.Gui.OpenCaptureStream | grabadora.py:369-389 | opening and starting the capture stream, then starting the clock at zero, change the fields as `Fsm.OpenCaptureStream` says |
| Grabadora.Gui.ResumeRecording | grabadora.py:406-418 | the fields change as `Fsm.ResumeRecording` says |
| Grabadora.Gui.CloseCapture | grabadora.py:458-466 | the fields change as `Fsm.CloseCapture` says |
| Grabadora.Gui.ExportMp3 | grabadora.py:474-487 | with no FFmpeg nothing is written and nothing raises; for a `.wav` name the MP3 name is that name with `.mp3` for `.wav`, and only the export's own failure raises |
| Grabadora.Gui.OnMonitor | grabadora.py:224-334 | the fields change as `Fsm.OnMonitor` says, and the object stays valid |
| Grabadora.Gui.OnStartRec | grabadora.py:336-434 | raises exactly outside monitoring, recording and pause_rec; the fields change as `Fsm.OnStartRec` says, and the object stays valid |
| Grabadora.Gui.OnStopRec | grabadora.py:436-521 | raises exactly outside recording and pause_rec; the fields change as `Fsm.OnStopRec` says, and the object stays valid |
| Grabadora.Gui.UpdateDisplay | grabadora.py:566-580 | the time shown is `elapsed()` split into its four fields; with the clock stopped and a non-negative total, the fields recompose to it |
| Grabadora.AudioCallback.constructor | grabadora.py:632-644 | the callback holds the controller it was given |
| Grabadora.AudioCallback.MonitorCallback | grabadora.py:646-687 | the processed block returned, and the meter set, are those `Fsm.MonitorCallback` gives; the controller stays valid |
| Grabadora.AudioCallback.RecordCallback | grabadora.py:690-736 | while the capture stream runs, the WAV file is open, so the wait never spins; the file grows and the meter is set as `Fsm.RecordCallback` says, and the controller stays valid |

## Left out

- The wx user interface is not modelled: labels, colours, enabling and the
  editability of the name field. The name field is modelled as the text it
  holds. `onAudioNameUpdate` is modelled as the code is: ungated, in every state.
- The wx timer is not modelled beyond whether it exists. `update_timer` only
  calls `update_display`.
- Logging is not modelled.
- Device enumeration and the default-device queries are not modelled.
- The constructor does not model creating the audio directory
  (grabadora.py:172-179).
- The FFmpeg check is not modelled. It is the `exportMp3` argument of the
  constructor.
- The MP3 export is one step that either succeeds or raises:
  `AudioSegment.from_wav`, the encoder and `os.remove` happen outside the model.
- The WAV header and the bytes of `writeframes` are not modelled. The file is
  modelled as the sequence of int16 samples written to it.
- PyAudio's `open` starts a stream by default, so the first `start_stream`
  after `open` does nothing. The model still treats opening and starting as
  two steps that can each fail. The "opened but stopped" outcome after a failed
  first start, in SessionProps.MonitorFromIdleFails and
  SessionProps.StartRecFailures, therefore over-approximates what the code
  can do. Only the restart in `onStartRec` from `pause_rec` can really fail
  that way.
- `stop_stream` and `close` are not modelled as raising. The model has no
  fault for them.
- `os.path.join` is modelled for a relative file name only, as directory,
  separator, name. An absolute or drive-qualified name typed by the user is
  not modelled.
- Stamp years are limited to 1000..9999, so `%Y` is always four digits.
- `peak_level_db` is kept as the silence sentinel or the positive peak. The
  base-10 logarithm is not evaluated, because floating point is not modelled.
- Display.MapDbToGauge: the argument is the dB value as a real.
  `update_display` refreshes the gauge from any value the callbacks set, the
  silence sentinel included. That refresh is not modelled.
- Gain.ScaleSample: the product is computed exactly over the rationals. numpy
  computes it in float64, where the rounding of `k/10.0` may move a sample
  that should land exactly on an integer by one least significant bit.
- Time is modelled as integer milliseconds. `time.monotonic()` is a float in
  seconds.
- The audio thread is not modelled. Each callback runs atomically against the
  session. The spin-wait of `record_callback` on a missing file is not
  modelled; the model requires that the capture stream runs, which implies an
  open file, so the wait never spins.
- Fsm.MonitorCallback and Fsm.RecordCallback require a non-empty block:
  `np.max` raises on an empty array, and PyAudio always delivers blocks of
  1024 frames.
- Exceptions raised out of `onStartRec` and `onStopRec` before their `try`
  are modelled as leaving the state unchanged, with a `raised` result.
- `on_browse`, `onFrameExit` and the output volume slider are outside this
  model.
