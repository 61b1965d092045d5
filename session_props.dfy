/**
 * Properties of the recording session: the transition table, the invalid
 * commands, the error trap, sink-before-stream in every reachable state, the
 * pause-safe elapsed-time clock and what the callbacks write.
 */
module SessionProps {
  import opened Wrappers
  import opened Names
  import opened Gain
  import opened Fsm

  // ---------------------------------------------------------------------------
  // onMonitor

  /** From idle, `onMonitor` offers the default name, opens and starts the monitor stream and resets the gain to 2.0. */
  lemma MonitorFromIdle(s: Session, stamp: Stamp)
    requires Inv(s) && s.state == Idle
    ensures var r := OnMonitor(s, stamp, NoFault);
      && r.state == Monitoring && r.monitorStream == Running && r.recordStream == NoStream
      && r.timer && r.gain == DefaultGain
      && r.outputFilename == DefaultName(stamp) && r.filenameField == DefaultBase(stamp)
      && EnsureWav(r.filenameField) == r.outputFilename
  {
    DefaultNameSplit(stamp);
  }

  /** A monitor stream that fails to open stays `None`; one that fails to start stays open but stopped. */
  lemma MonitorFromIdleFails(s: Session, stamp: Stamp, fault: Fault)
    requires Inv(s) && s.state == Idle
    requires fault == StreamOpenFails || fault == StreamStartFails
    ensures var r := OnMonitor(s, stamp, fault);
      && r.state == Error
      && r.monitorStream == (if fault == StreamOpenFails then NoStream else Stopped)
      && r.timer == s.timer && r.gain == s.gain
      && r.outputFilename == DefaultName(stamp) && r.filenameField == DefaultBase(stamp)
  {
  }

  /** From monitoring, `onMonitor` closes the monitor stream, drops the timer and clears the name field. */
  lemma MonitorToIdle(s: Session, stamp: Stamp, fault: Fault)
    requires Inv(s) && s.state == Monitoring
    ensures OnMonitor(s, stamp, fault) ==
      s.(state := Idle, monitorStream := NoStream, timer := false, startTime := None, filenameField := "")
  {
  }

  /** In any other state `onMonitor` catches its own ValueError and enters "error", touching nothing else. */
  lemma MonitorInvalid(s: Session, stamp: Stamp, fault: Fault)
    requires Inv(s) && s.state != Idle && s.state != Monitoring
    ensures OnMonitor(s, stamp, fault) == s.(state := Error)
  {
  }

  // ---------------------------------------------------------------------------
  // onStartRec

  /**
   * From monitoring, `onStartRec` fixes the `.wav` name, opens the WAV file
   * before the capture stream, keeps the monitor stream running and starts
   * the clock at zero.
   */
  lemma StartRecFromMonitoring(s: Session, now: int, later: int)
    requires Inv(s) && s.state == Monitoring
    ensures var r := OnStartRec(s, now, NoFault);
      && r.state == Recording && r.wavOpen && r.wavFrames == []
      && r.recordStream == Running && r.monitorStream == Running
      && r.outputFilename == JoinPath(s.audioDir, EnsureWav(s.filenameField))
      && EndsWith(r.outputFilename, WavSuffix)
      && Elapsed(r, later) == later - now
  {
  }

  /**
   * The failures of the start: a failed `wave.open` leaves no file; a capture
   * stream that fails to open or start leaves the WAV file open in "error".
   */
  lemma StartRecFailures(s: Session, now: int, fault: Fault)
    requires Inv(s) && s.state == Monitoring && fault != NoFault && fault != ExportFails
    ensures var r := OnStartRec(s, now, fault);
      && r.state == Error && r.monitorStream == Running && !r.timerRunning
      && r.wavOpen == (fault != WaveOpenFails)
      && r.recordStream == (if fault == StreamStartFails then Stopped else NoStream)
  {
  }

  /** Pausing stops the capture stream, keeps the file open and freezes the clock at its value at `now`. */
  lemma PauseFreezes(s: Session, now: int, fault: Fault, later: int)
    requires Inv(s) && s.state == Recording
    ensures var r := OnStartRec(s, now, fault);
      && r.state == PauseRec && r.recordStream == Stopped && r.wavOpen && r.wavFrames == s.wavFrames
      && !r.timerRunning && Elapsed(r, later) == Elapsed(s, now)
  {
  }

  /** Resuming restarts the capture stream and the clock continues from the frozen value. */
  lemma ResumeContinues(s: Session, now: int, later: int)
    requires Inv(s) && s.state == PauseRec
    ensures var r := OnStartRec(s, now, NoFault);
      && r.state == Recording && r.recordStream == Running && r.wavFrames == s.wavFrames
      && Elapsed(r, later) == Elapsed(s, now) + (later - now)
  {
  }

  /** A capture stream that fails to restart sends the session to "error" with the file still open. */
  lemma ResumeFails(s: Session, now: int)
    requires Inv(s) && s.state == PauseRec
    ensures OnStartRec(s, now, StreamStartFails) == s.(state := Error)
  {
  }

  /** Outside monitoring, recording and pause_rec `onStartRec` raises before its `try`: nothing changes. */
  lemma StartRecInvalid(s: Session, now: int, fault: Fault)
    requires Inv(s) && StartRecRaises(s)
    ensures OnStartRec(s, now, fault) == s
  {
  }

  // ---------------------------------------------------------------------------
  // onStopRec

  /**
   * A stop closes the stream, then the file, adds the running interval to the
   * clock, exports, and returns to monitoring with a fresh default name; the
   * closed file keeps the samples written to it.
   */
  lemma StopRecToMonitoring(s: Session, now: int, stamp: Stamp)
    requires Inv(s) && !StopRecRaises(s)
    ensures var r := OnStopRec(s, now, stamp, NoFault);
      && r.state == Monitoring && r.recordStream == NoStream && !r.wavOpen
      && r.monitorStream == Running && !r.timerRunning
      && r.wavFrames == s.wavFrames && r.recElapsed == Elapsed(s, now)
      && r.outputFilename == DefaultName(stamp) && r.filenameField == DefaultBase(stamp)
  {
  }

  /** A failed MP3 export sends the session to "error" after every resource has been released. */
  lemma {:induction false} StopRecExportFails(s: Session, now: int, stamp: Stamp)
    requires Inv(s) && !StopRecRaises(s) && s.exportMp3
    ensures var r := OnStopRec(s, now, stamp, ExportFails);
      && r.state == Error && r.recordStream == NoStream && !r.wavOpen
      && !r.timerRunning && r.recElapsed == Elapsed(s, now)
      && r.outputFilename == s.outputFilename
  {
  }

  /** Outside recording and pause_rec `onStopRec` raises before its `try`: nothing changes. */
  lemma StopRecInvalid(s: Session, now: int, stamp: Stamp, fault: Fault)
    requires Inv(s) && StopRecRaises(s)
    ensures OnStopRec(s, now, stamp, fault) == s
  {
  }

  // ---------------------------------------------------------------------------
  // The error trap and reachable states

  /** No handler and no callback moves the session out of "error". */
  lemma ErrorIsFinal(s: Session, st: Step)
    requires Inv(s) && s.state == Error
    ensures Apply(s, st).state == Error
  {
    match st.event
    case MonitorPressed(stamp, fault) => MonitorInvalid(s, stamp, fault);
    case StartRecPressed(fault) => StartRecInvalid(s, st.now, fault);
    case StopRecPressed(stamp, fault) => StopRecInvalid(s, st.now, stamp, fault);
    case _ =>
  }

  lemma {:induction false} RunFromErrorStaysError(s: Session, steps: seq<Step>)
    requires Inv(s) && s.state == Error
    ensures Run(s, steps).state == Error
    decreases |steps|
  {
    if |steps| > 0 {
      ErrorIsFinal(s, steps[0]);
      RunFromErrorStaysError(Apply(s, steps[0]), steps[1..]);
    }
  }

  /**
   * In every state reachable from start-up, "error" included, a capture
   * stream exists only while the WAV file is open; while recording, the
   * monitor and the capture stream run side by side; outside "error" the
   * clock runs exactly while recording.
   */
  lemma Reachable(audioDir: string, exportMp3: bool, steps: seq<Step>)
    ensures var r := Run(Initial(audioDir, exportMp3), steps);
      && (r.recordStream != NoStream ==> r.wavOpen)
      && (r.state == Recording ==> r.monitorStream == Running && r.recordStream == Running)
      && (r.state != Error ==> (r.timerRunning <==> r.state == Recording))
  {
  }

  // ---------------------------------------------------------------------------
  // The elapsed-time clock

  /** Start at t0, pause at t1, resume at t2, stop at t3: the time paused does not count. */
  lemma {:induction false} PauseResumeAccumulates(s: Session, t0: int, t1: int, t2: int, t3: int, stamp: Stamp)
    requires Inv(s) && s.state == Monitoring
    ensures var recording := OnStartRec(s, t0, NoFault);
      var paused := OnStartRec(recording, t1, NoFault);
      var resumed := OnStartRec(paused, t2, NoFault);
      var stopped := OnStopRec(resumed, t3, stamp, NoFault);
      && stopped.state == Monitoring
      && stopped.recElapsed == (t1 - t0) + (t3 - t2)
  {
    var recording := OnStartRec(s, t0, NoFault);
    StartRecFromMonitoring(s, t0, t1);
    var paused := OnStartRec(recording, t1, NoFault);
    PauseFreezes(recording, t1, NoFault, t2);
    var resumed := OnStartRec(paused, t2, NoFault);
    ResumeContinues(paused, t2, t3);
    StopRecToMonitoring(resumed, t3, stamp);
  }

  /** While the clock is stopped, `elapsed()` reads the same at any time. */
  lemma ElapsedFrozen(s: Session, a: int, b: int)
    requires !s.timerRunning
    ensures Elapsed(s, a) == Elapsed(s, b)
  {
  }

  /** While the clock runs, `elapsed()` never decreases. */
  lemma ElapsedNonDecreasing(s: Session, a: int, b: int)
    requires s.timerRunning ==> s.startTime.Some?
    requires a <= b
    ensures Elapsed(s, a) <= Elapsed(s, b)
  {
  }

  /** The clock has accumulated nothing negative and was started no later than `now`. */
  ghost predicate ClockSane(s: Session, now: int) {
    s.recElapsed >= 0 && (s.startTime.Some? ==> s.startTime.value <= now)
  }

  /** Timestamps of a run that never go back, starting no earlier than `t`. */
  ghost predicate MonotoneFrom(t: int, steps: seq<Step>)
    decreases |steps|
  {
    |steps| == 0 || (t <= steps[0].now && MonotoneFrom(steps[0].now, steps[1..]))
  }

  function LastTime(t: int, steps: seq<Step>): (r: int)
    decreases |steps|
  {
    if |steps| == 0 then t else LastTime(steps[0].now, steps[1..])
  }

  lemma MonitorKeepsClockSane(s: Session, t: int, now: int, stamp: Stamp, fault: Fault)
    requires Inv(s) && ClockSane(s, t) && t <= now
    ensures ClockSane(OnMonitor(s, stamp, fault), now)
  {
  }

  lemma StartRecKeepsClockSane(s: Session, t: int, now: int, fault: Fault)
    requires Inv(s) && ClockSane(s, t) && t <= now
    ensures ClockSane(OnStartRec(s, now, fault), now)
  {
    if s.state == Monitoring {
      var locked := LockName(s);
      assert locked.recElapsed == s.recElapsed && locked.startTime == s.startTime;
    }
  }

  lemma StopRecKeepsClockSane(s: Session, t: int, now: int, stamp: Stamp, fault: Fault)
    requires Inv(s) && ClockSane(s, t) && t <= now
    ensures ClockSane(OnStopRec(s, now, stamp, fault), now)
  {
  }

  lemma ApplyKeepsClockSane(s: Session, t: int, st: Step)
    requires Inv(s) && ClockSane(s, t) && t <= st.now
    ensures ClockSane(Apply(s, st), st.now)
  {
    match st.event
    case MonitorPressed(stamp, fault) => MonitorKeepsClockSane(s, t, st.now, stamp, fault);
    case StartRecPressed(fault) => StartRecKeepsClockSane(s, t, st.now, fault);
    case StopRecPressed(stamp, fault) => StopRecKeepsClockSane(s, t, st.now, stamp, fault);
    case _ =>
  }

  lemma {:induction false} RunKeepsClockSane(s: Session, t: int, steps: seq<Step>)
    requires Inv(s) && ClockSane(s, t) && MonotoneFrom(t, steps)
    ensures t <= LastTime(t, steps)
    ensures ClockSane(Run(s, steps), LastTime(t, steps))
    decreases |steps|
  {
    if |steps| > 0 {
      ApplyKeepsClockSane(s, t, steps[0]);
      RunKeepsClockSane(Apply(s, steps[0]), steps[0].now, steps[1..]);
    }
  }

  /** With a monotonic time source, `elapsed()` is never negative in any reachable state. */
  lemma {:induction false} ElapsedNeverNegative(audioDir: string, exportMp3: bool, t0: int, steps: seq<Step>, now: int)
    requires MonotoneFrom(t0, steps) && LastTime(t0, steps) <= now
    ensures Elapsed(Run(Initial(audioDir, exportMp3), steps), now) >= 0
  {
    RunKeepsClockSane(Initial(audioDir, exportMp3), t0, steps);
  }

  // ---------------------------------------------------------------------------
  // Callbacks

  /**
   * A block delivered while capturing grows the WAV file by exactly the
   * processed block and sets the meter; nothing else changes.
   */
  lemma RecordBlockAppends(s: Session, now: int, block: seq<Int16>)
    requires Inv(s) && s.recordStream == Running && |block| > 0
    ensures var r := Apply(s, Step(now, RecordBlock(block)));
      && r.wavFrames == s.wavFrames + Amplify(block, s.gain)
      && |r.wavFrames| == |s.wavFrames| + |block|
      && r == s.(wavFrames := r.wavFrames, peakLevel := Some(PeakLevelOf(Amplify(block, s.gain))))
  {
  }

  /** No block reaches the file while paused: the capture stream is stopped. */
  lemma PausedWritesNothing(s: Session, now: int, block: seq<Int16>)
    requires Inv(s) && s.state == PauseRec
    ensures Apply(s, Step(now, RecordBlock(block))) == s
  {
  }

  /** The monitor path plays back the processed block, of the same length, and only sets the meter. */
  lemma MonitorBlockPlaysBack(s: Session, block: seq<Int16>)
    requires Inv(s) && |block| > 0
    ensures var (r, out) := MonitorCallback(s, block);
      && out == Amplify(block, s.gain) && |out| == |block|
      && r == s.(peakLevel := Some(PeakLevelOf(out)))
  {
  }
}
