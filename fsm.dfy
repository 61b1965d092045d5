/**
 * The recording session of the `GUI` class as values: its state, the two
 * PyAudio streams, the WAV sink, the timer and the elapsed-time clock, and one
 * function per wx handler and per PyAudio callback, each applied atomically.
 *
 * Every step that can raise (opening or starting a stream, `wave.open`, the
 * MP3 export) is decided by a `Fault` argument naming the first step that
 * raises in that call; a step the handler does not reach cannot raise.
 * Timestamps of `time.monotonic()` are `now` arguments in milliseconds and
 * `datetime.now()` is a `Stamp` argument.
 */
module Fsm {
  import opened Wrappers
  import opened Names
  import opened Gain

  /** `state_fsm`: "idle", "monitoring", "recording", "pause_rec", "error". */
  datatype FsmState = Idle | Monitoring | Recording | PauseRec | Error

  /** A stream slot: `None`, an opened stream that is not started, or a started one. */
  datatype Stream = NoStream | Stopped | Running

  /** The first I/O step that raises during a handler call, if any. */
  datatype Fault = NoFault | StreamOpenFails | StreamStartFails | WaveOpenFails | ExportFails

  datatype Session = Session(
    state: FsmState,
    monitorStream: Stream,
    recordStream: Stream,
    wavOpen: bool,              // `output_wavefile is not None`
    wavFrames: seq<Int16>,      // samples written to the current (or last closed) WAV file
    timer: bool,                // `self.timer is not None`
    startTime: Option<int>,
    recElapsed: int,
    timerRunning: bool,
    gain: Tenths,               // `current_gain` in tenths
    peakLevel: Option<PeakLevel>,
    outputFilename: string,
    filenameField: string,      // the value of `m_textCtrlFilename`
    audioDir: string,           // `cds_audio_path`
    exportMp3: bool)            // `self.export`: FFmpeg found at start-up

  /** The state `GUI.__init__` leaves. */
  function Initial(audioDir: string, exportMp3: bool): (s: Session)
    ensures Inv(s) && s.state == Idle
  {
    Session(Idle, NoStream, NoStream, false, [], false, None, 0, false, DefaultGain,
            None, "", "", audioDir, exportMp3)
  }

  /**
   * What holds in every state the handlers can reach. Outside "error" each
   * state fixes its resources; in every state, "error" included, a capture
   * stream exists only while the WAV file is open (the sink is opened before
   * the stream and closed after it), and the clock has a start time while it runs.
   */
  ghost predicate Inv(s: Session) {
    && (s.recordStream != NoStream ==> s.wavOpen)
    && (s.timerRunning ==> s.startTime.Some?)
    && match s.state
       case Idle =>
         s.monitorStream == NoStream && s.recordStream == NoStream && !s.wavOpen
         && !s.timer && !s.timerRunning
       case Monitoring =>
         s.monitorStream == Running && s.recordStream == NoStream && !s.wavOpen
         && s.timer && !s.timerRunning
       case Recording =>
         s.monitorStream == Running && s.recordStream == Running && s.wavOpen
         && s.timer && s.timerRunning && EndsWith(s.outputFilename, WavSuffix)
       case PauseRec =>
         s.monitorStream == Running && s.recordStream == Stopped && s.wavOpen
         && s.timer && !s.timerRunning && EndsWith(s.outputFilename, WavSuffix)
       case Error => true
  }

  /** `elapsed()`: the accumulated time, plus the running interval while the clock runs. */
  function Elapsed(s: Session, now: int): (r: int)
    requires s.timerRunning ==> s.startTime.Some?
    ensures !s.timerRunning ==> r == s.recElapsed
    ensures s.timerRunning && s.startTime.value <= now ==> r >= s.recElapsed
  {
    if s.timerRunning then s.recElapsed + (now - s.startTime.value) else s.recElapsed
  }

  // ---------------------------------------------------------------------------
  // The steps the handlers are made of

  /**
   * The fresh default name `onMonitor` and `onStopRec` offer: `output_filename`
   * becomes `audio_<stamp>.wav` and the name field shows the part before the
   * last dot (the unpacking of `rsplit` cannot raise, see `DefaultNameSplit`).
   */
  function OfferDefaultName(s: Session, stamp: Stamp): (r: Session)
    ensures EndsWith(r.outputFilename, WavSuffix) && r.outputFilename == r.filenameField + WavSuffix
    ensures r == s.(outputFilename := r.outputFilename, filenameField := r.filenameField)
  {
    s.(outputFilename := DefaultName(stamp), filenameField := DefaultBase(stamp))
  }

  /** From idle: open and start the monitor stream, create the timer, reset the gain to 2.0. */
  function StartMonitoring(s: Session, fault: Fault): (r: Session)
    ensures r.state == Monitoring <==> fault != StreamOpenFails && fault != StreamStartFails
    ensures r.state == Monitoring ==> r.monitorStream == Running && r.timer && r.gain == DefaultGain
    ensures r.state != Monitoring ==> r.state == Error && r.timer == s.timer && r.gain == s.gain
    ensures fault == StreamOpenFails ==> r.monitorStream == s.monitorStream
    ensures r == s.(monitorStream := r.monitorStream, timer := r.timer, gain := r.gain, state := r.state)
  {
    if fault == StreamOpenFails then s.(state := Error)
    else if fault == StreamStartFails then s.(monitorStream := Stopped, state := Error)
    else s.(monitorStream := Running, timer := true, gain := DefaultGain, state := Monitoring)
  }

  /** From monitoring: close the monitor stream, drop the timer, clear the name field. */
  function StopMonitoring(s: Session): (r: Session)
    ensures r.state == Idle && r.monitorStream == NoStream && !r.timer && r.filenameField == ""
    ensures s.timer ==> r.startTime.None?
    ensures r == s.(monitorStream := NoStream, timer := false, startTime := r.startTime, filenameField := "", state := Idle)
  {
    var closed := if s.monitorStream != NoStream then s.(monitorStream := NoStream) else s;
    var untimed := if closed.timer then closed.(timer := false, startTime := None) else closed;
    untimed.(filenameField := "", state := Idle)
  }

  /** Locking the name at the start of a recording: the field's text, made a `.wav` name inside the audio directory. */
  function LockName(s: Session): (r: Session)
    ensures EndsWith(r.outputFilename, WavSuffix)
    ensures r == s.(outputFilename := r.outputFilename)
  {
    s.(outputFilename := JoinPath(s.audioDir, EnsureWav(s.filenameField)))
  }

  /** Starting the clock: the start time is now and the clock runs. */
  function StartClock(s: Session, now: int): (r: Session)
    ensures r.timerRunning && r.startTime == Some(now) && Elapsed(r, now) == s.recElapsed
    ensures r == s.(startTime := r.startTime, timerRunning := true)
  {
    s.(startTime := Some(now), timerRunning := true)
  }

  /**
   * Closing the clock, if it runs: the running interval is
   * banked, so the accumulated time becomes what `elapsed()` showed.
   */
  function StopClock(s: Session, now: int): (r: Session)
    requires s.timerRunning ==> s.startTime.Some?
    ensures r == s.(recElapsed := Elapsed(s, now), timerRunning := false)
  {
    if s.timerRunning then s.(recElapsed := s.recElapsed + (now - s.startTime.value), timerRunning := false)
    else s
  }

  /** From monitoring, once the name is locked: open the WAV file, then the capture stream. */
  function StartRecording(s: Session, now: int, fault: Fault): (r: Session)
    ensures fault == WaveOpenFails ==> r == s.(state := Error)
    ensures fault != WaveOpenFails ==> r.wavOpen && r.wavFrames == []
    ensures r.state == Recording || r.state == Error
    ensures r.state == Recording ==>
      r.recordStream == Running && r.timerRunning && r.startTime == Some(now) && Elapsed(r, now) == 0
  {
    if fault == WaveOpenFails then s.(state := Error)
    else OpenCaptureStream(s.(wavOpen := true, wavFrames := []), now, fault)
  }

  /** Open and start the capture stream, then start the clock at zero. */
  function OpenCaptureStream(s: Session, now: int, fault: Fault): (r: Session)
    ensures r.state == Recording <==> fault != StreamOpenFails && fault != StreamStartFails
    ensures r.state == Recording ==>
      r.recordStream == Running && r.timerRunning && r.startTime == Some(now) && Elapsed(r, now) == 0
    ensures r.state != Recording ==>
      r.state == Error && r.timerRunning == s.timerRunning && r.recElapsed == s.recElapsed
    ensures fault == StreamOpenFails ==> r.recordStream == s.recordStream
    ensures r == s.(recordStream := r.recordStream, recElapsed := r.recElapsed, startTime := r.startTime,
                    timerRunning := r.timerRunning, state := r.state)
  {
    if fault == StreamOpenFails then s.(state := Error)
    else if fault == StreamStartFails then s.(recordStream := Stopped, state := Error)
    else StartClock(s.(recordStream := Running, recElapsed := 0), now).(state := Recording)
  }

  /** From pause_rec: restart the capture stream and the clock. */
  function ResumeRecording(s: Session, now: int, fault: Fault): (r: Session)
    ensures fault == StreamStartFails ==> r == s.(state := Error)
    ensures fault != StreamStartFails ==>
      && r.state == Recording && r.recordStream == Running && r.timerRunning && r.startTime == Some(now)
      && Elapsed(r, now) == s.recElapsed
    ensures r == s.(recordStream := r.recordStream, startTime := r.startTime, timerRunning := r.timerRunning,
                    state := r.state)
  {
    if fault == StreamStartFails then s.(state := Error)
    else StartClock(s.(recordStream := Running), now).(state := Recording)
  }

  /** Stopping a recording: stop and close the capture stream, then close the WAV file. */
  function CloseCapture(s: Session): (r: Session)
    ensures r.recordStream == NoStream && !r.wavOpen
    ensures r == s.(recordStream := NoStream, wavOpen := false)
  {
    var streamClosed := if s.recordStream != NoStream then s.(recordStream := NoStream) else s;
    if streamClosed.wavOpen then streamClosed.(wavOpen := false) else streamClosed
  }

  /**
   * Whether the MP3 export raises: reading the WAV file, encoding it or removing
   * it fails. Splitting the name cannot raise, as the name ends in `.wav`
   * (`Mp3NameOfWav`).
   */
  predicate ExportRaises(s: Session, fault: Fault)
    ensures ExportRaises(s, fault) ==> s.exportMp3
  {
    s.exportMp3 && fault == ExportFails
  }

  // ---------------------------------------------------------------------------
  // The handlers

  /** `onMonitor`: idle -> monitoring, monitoring -> idle, anything else -> error. */
  function OnMonitor(s: Session, stamp: Stamp, fault: Fault): (r: Session)
    requires Inv(s)
    ensures Inv(r)
  {
    if s.state != Idle && s.state != Monitoring then
      s.(state := Error)                      // ValueError raised and caught in the same try
    else if s.state == Idle then StartMonitoring(OfferDefaultName(s, stamp), fault)
    else StopMonitoring(s)
  }

  /** `onStartRec` raises ValueError before its `try` in these states. */
  predicate StartRecRaises(s: Session) {
    s.state != Monitoring && s.state != Recording && s.state != PauseRec
  }

  /** `onStartRec`: start (monitoring), pause (recording) or resume (pause_rec). */
  function OnStartRec(s: Session, now: int, fault: Fault): (r: Session)
    requires Inv(s)
    ensures Inv(r)
  {
    match s.state
    case Monitoring => StartRecording(LockName(s), now, fault)
    case Recording => StopClock(s.(recordStream := Stopped), now).(state := PauseRec)
    case PauseRec => ResumeRecording(s, now, fault)
    case _ => s
  }

  /** `onStopRec` raises ValueError before its `try` in these states. */
  predicate StopRecRaises(s: Session) {
    s.state != Recording && s.state != PauseRec
  }

  /**
   * `onStopRec`: stop and close the capture stream, close the WAV file, close
   * the clock, export to MP3 when FFmpeg was found, then offer a fresh default
   * name and return to monitoring.
   */
  function OnStopRec(s: Session, now: int, stamp: Stamp, fault: Fault): (r: Session)
    requires Inv(s)
    ensures Inv(r)
  {
    if StopRecRaises(s) then s
    else
      var closed := StopClock(CloseCapture(s), now);
      if ExportRaises(closed, fault) then closed.(state := Error)
      else OfferDefaultName(closed, stamp).(state := Monitoring)
  }

  /** `onGainChange`: the gain becomes the slider position in tenths. */
  function OnGainChange(s: Session, slider: Tenths): (r: Session)
    requires Inv(s)
    ensures Inv(r)
  {
    s.(gain := slider)
  }

  /** `onAudioNameUpdate`: the name field's text, with `.wav` appended when missing. */
  function OnAudioNameUpdate(s: Session, text: string): (r: Session)
    requires Inv(s)
    ensures Inv(r)
  {
    s.(filenameField := text, outputFilename := EnsureWav(text))
  }

  /** `monitor_callback`: process the block, meter it and hand it back for playback. */
  function MonitorCallback(s: Session, block: seq<Int16>): (r: (Session, seq<Int16>))
    requires Inv(s) && |block| > 0
    ensures Inv(r.0)
  {
    var out := Amplify(block, s.gain);
    (s.(peakLevel := Some(PeakLevelOf(out))), out)
  }

  /** `record_callback`: process the block, meter it and append it to the open WAV file. */
  function RecordCallback(s: Session, block: seq<Int16>): (r: Session)
    requires Inv(s) && |block| > 0 && s.wavOpen
    ensures Inv(r)
  {
    var out := Amplify(block, s.gain);
    s.(peakLevel := Some(PeakLevelOf(out)), wavFrames := s.wavFrames + out)
  }

  // ---------------------------------------------------------------------------
  // Runs: what the control thread and the device can do, in any order

  datatype Event =
    | MonitorPressed(stamp: Stamp, fault: Fault)
    | StartRecPressed(fault: Fault)
    | StopRecPressed(stamp: Stamp, fault: Fault)
    | SliderMoved(slider: Tenths)
    | NameEdited(text: string)
    | MonitorBlock(block: seq<Int16>)     // delivered only while the monitor stream runs
    | RecordBlock(block: seq<Int16>)      // delivered only while the capture stream runs

  /** An event at a monotonic time in milliseconds. */
  datatype Step = Step(now: int, event: Event)

  function Apply(s: Session, st: Step): (r: Session)
    requires Inv(s)
    ensures Inv(r)
  {
    match st.event
    case MonitorPressed(stamp, fault) => OnMonitor(s, stamp, fault)
    case StartRecPressed(fault) => OnStartRec(s, st.now, fault)
    case StopRecPressed(stamp, fault) => OnStopRec(s, st.now, stamp, fault)
    case SliderMoved(slider) => OnGainChange(s, slider)
    case NameEdited(text) => OnAudioNameUpdate(s, text)
    case MonitorBlock(block) =>
      if s.monitorStream == Running && |block| > 0 then MonitorCallback(s, block).0 else s
    case RecordBlock(block) =>
      if s.recordStream == Running && |block| > 0 then RecordCallback(s, block) else s
  }

  function Run(s: Session, steps: seq<Step>): (r: Session)
    requires Inv(s)
    ensures Inv(r)
    decreases |steps|
  {
    if |steps| == 0 then s else Run(Apply(s, steps[0]), steps[1..])
  }
}
