/**
 * The `GUI` controller and its `MyAudioCallback` helper as objects whose
 * fields the handlers update step by step. Each handler is proved to leave the
 * object in the state the matching `Fsm` function gives, and to keep `Inv`.
 */
module Grabadora {
  import opened Wrappers
  import opened Names
  import opened Gain
  import opened Display
  import opened Fsm

  class Gui {
    var stateFsm: FsmState
    var monitorStream: Stream
    var recordStream: Stream
    var wavOpen: bool
    var wavFrames: seq<Int16>
    var timer: bool
    var startTime: Option<int>
    var recElapsed: int
    var timerRunning: bool
    var currentGain: Tenths
    var peakLevelDb: Option<PeakLevel>
    var outputFilename: string
    var filenameField: string
    const cdsAudioPath: string
    const exportMp3: bool

    /** The session these fields hold. */
    function Snapshot(): (s: Session)
      reads this
    {
      Session(stateFsm, monitorStream, recordStream, wavOpen, wavFrames, timer, startTime,
              recElapsed, timerRunning, currentGain, peakLevelDb, outputFilename, filenameField,
              cdsAudioPath, exportMp3)
    }

    ghost predicate Valid()
      reads this
    {
      Inv(Snapshot())
    }

    /** `GUI.__init__`, given the audio directory and whether FFmpeg was found. */
    constructor (audioDir: string, ffmpegFound: bool)
      ensures Valid() && Snapshot() == Initial(audioDir, ffmpegFound)
    {
      stateFsm := Idle;
      monitorStream, recordStream := NoStream, NoStream;
      wavOpen, wavFrames := false, [];
      outputFilename, filenameField := "", "";
      peakLevelDb := None;
      currentGain := DefaultGain;
      timer, startTime, recElapsed, timerRunning := false, None, 0, false;
      cdsAudioPath := audioDir;
      exportMp3 := ffmpegFound;
    }

    method OnAudioNameUpdate(text: string)
      requires Valid()
      modifies this
      ensures Valid() && Snapshot() == Fsm.OnAudioNameUpdate(old(Snapshot()), text)
      ensures EndsWith(outputFilename, WavSuffix)
    {
      filenameField := text;
      outputFilename := filenameField;
      if !EndsWith(outputFilename, WavSuffix) {
        outputFilename := outputFilename + WavSuffix;
      }
    }

    method OnGainChange(slider: Tenths)
      requires Valid()
      modifies this
      ensures Valid() && Snapshot() == Fsm.OnGainChange(old(Snapshot()), slider)
    {
      currentGain := slider;
    }

    // The steps the handlers are made of, each the `Fsm` function of the same name

    method OfferDefaultName(stamp: Stamp)
      modifies this
      ensures Snapshot() == Fsm.OfferDefaultName(old(Snapshot()), stamp)
    {
      outputFilename := DefaultName(stamp);
      DefaultNameSplit(stamp);
      var split := RSplitDot(outputFilename);
      filenameField := split.value.0;
    }

    method StartMonitoring(fault: Fault)
      modifies this
      ensures Snapshot() == Fsm.StartMonitoring(old(Snapshot()), fault)
    {
      if fault == StreamOpenFails {
        stateFsm := Error;
      } else {
        monitorStream := Stopped;
        if fault == StreamStartFails {
          stateFsm := Error;
        } else {
          monitorStream := Running;
          timer := true;
          currentGain := DefaultGain;
          stateFsm := Monitoring;
        }
      }
    }

    method StopMonitoring()
      modifies this
      ensures Snapshot() == Fsm.StopMonitoring(old(Snapshot()))
    {
      if monitorStream != NoStream {
        monitorStream := NoStream;
      }
      if timer {
        timer := false;
        startTime := None;
      }
      filenameField := "";
      stateFsm := Idle;
    }

    method LockName()
      modifies this
      ensures Snapshot() == Fsm.LockName(old(Snapshot()))
    {
      outputFilename := filenameField;
      if !EndsWith(outputFilename, WavSuffix) {
        outputFilename := outputFilename + WavSuffix;
      }
      outputFilename := JoinPath(cdsAudioPath, outputFilename);
    }

    method StopClock(now: int)
      requires timerRunning ==> startTime.Some?
      modifies this
      ensures Snapshot() == Fsm.StopClock(old(Snapshot()), now)
    {
      if timerRunning {
        recElapsed := recElapsed + (now - startTime.value);
        timerRunning := false;
      }
    }

    method StartRecording(now: int, fault: Fault)
      modifies this
      ensures Snapshot() == Fsm.StartRecording(old(Snapshot()), now, fault)
    {
      if fault == WaveOpenFails {
        stateFsm := Error;
      } else {
        wavOpen, wavFrames := true, [];
        OpenCaptureStream(now, fault);
      }
    }

    method OpenCaptureStream(now: int, fault: Fault)
      modifies this
      ensures Snapshot() == Fsm.OpenCaptureStream(old(Snapshot()), now, fault)
    {
      if fault == StreamOpenFails {
        stateFsm := Error;
      } else {
        recordStream := Stopped;
        if fault == StreamStartFails {
          stateFsm := Error;
        } else {
          recordStream := Running;
          recElapsed := 0;
          startTime := Some(now);
          timerRunning := true;
          stateFsm := Recording;
        }
      }
    }

    method ResumeRecording(now: int, fault: Fault)
      modifies this
      ensures Snapshot() == Fsm.ResumeRecording(old(Snapshot()), now, fault)
    {
      if fault == StreamStartFails {
        stateFsm := Error;
      } else {
        recordStream := Running;
        startTime := Some(now);
        timerRunning := true;
        stateFsm := Recording;
      }
    }

    method CloseCapture()
      modifies this
      ensures Snapshot() == Fsm.CloseCapture(old(Snapshot()))
    {
      if recordStream != NoStream {
        recordStream := NoStream;
      }
      if wavOpen {
        wavOpen := false;
      }
    }

    /**
     * The MP3 export of `onStopRec`, when FFmpeg was found: the name it writes
     * and whether it raises. Reading, encoding and removing the WAV file happen
     * outside this model; only their outcome is the `fault`. Splitting a name
     * without a dot raises too, but a `.wav` name always splits.
     */
    method ExportMp3(fault: Fault) returns (mp3File: Option<string>, raised: bool)
      ensures !exportMp3 ==> mp3File.None? && !raised
      ensures mp3File.Some? ==> EndsWith(mp3File.value, Mp3Suffix)
      ensures EndsWith(outputFilename, WavSuffix) ==> raised == ExportRaises(Snapshot(), fault)
      ensures exportMp3 && EndsWith(outputFilename, WavSuffix) ==>
        mp3File == Some(outputFilename[..|outputFilename| - 4] + Mp3Suffix)
    {
      mp3File, raised := None, false;
      if exportMp3 {
        mp3File := Mp3Name(outputFilename);
        if EndsWith(outputFilename, WavSuffix) {
          Mp3NameOfWav(outputFilename);
        }
        raised := mp3File.None? || fault == ExportFails;
      }
    }

    // The handlers

    method OnMonitor(stamp: Stamp, fault: Fault)
      requires Valid()
      modifies this
      ensures Valid() && Snapshot() == Fsm.OnMonitor(old(Snapshot()), stamp, fault)
    {
      ghost var s0 := Snapshot();
      if stateFsm != Idle && stateFsm != Monitoring {
        stateFsm := Error;   // the ValueError is caught by the handler's own except clause
      } else if stateFsm == Idle {
        OfferDefaultName(stamp);
        StartMonitoring(fault);
      } else {
        StopMonitoring();
      }
      assert Inv(Fsm.OnMonitor(s0, stamp, fault));
    }

    method OnStartRec(now: int, fault: Fault) returns (raised: bool)
      requires Valid()
      modifies this
      ensures raised == StartRecRaises(old(Snapshot()))
      ensures Valid() && Snapshot() == Fsm.OnStartRec(old(Snapshot()), now, fault)
    {
      ghost var s0 := Snapshot();
      raised := stateFsm != Monitoring && stateFsm != Recording && stateFsm != PauseRec;
      if raised {
        // ValueError propagates out of the handler before its try block
      } else if stateFsm == Monitoring {
        LockName();
        StartRecording(now, fault);
      } else if stateFsm == Recording {
        recordStream := Stopped;
        StopClock(now);
        stateFsm := PauseRec;
      } else {
        ResumeRecording(now, fault);
      }
      assert Inv(Fsm.OnStartRec(s0, now, fault));
    }

    method OnStopRec(now: int, stamp: Stamp, fault: Fault) returns (raised: bool)
      requires Valid()
      modifies this
      ensures raised == StopRecRaises(old(Snapshot()))
      ensures Valid() && Snapshot() == Fsm.OnStopRec(old(Snapshot()), now, stamp, fault)
    {
      ghost var s0 := Snapshot();
      raised := stateFsm != Recording && stateFsm != PauseRec;
      if !raised {
        CloseCapture();
        StopClock(now);
        ghost var closed := Snapshot();
        assert closed == Fsm.StopClock(Fsm.CloseCapture(s0), now);
        assert EndsWith(outputFilename, WavSuffix) by { assert outputFilename == s0.outputFilename; }
        var mp3File, exportFailed := ExportMp3(fault);
        assert exportFailed == ExportRaises(closed, fault);
        if exportFailed {
          stateFsm := Error;
          assert Snapshot() == closed.(state := Error);
        } else {
          OfferDefaultName(stamp);
          stateFsm := Monitoring;
          assert Snapshot() == Fsm.OfferDefaultName(closed, stamp).(state := Monitoring);
        }
      }
      assert Inv(Fsm.OnStopRec(s0, now, stamp, fault));
    }

    /** The time part of `update_display`: `elapsed()` split for the HH:MM:SS.mmm text. */
    method UpdateDisplay(now: int) returns (shown: TimeParts)
      requires Valid()
      ensures shown == SplitTime(Elapsed(Snapshot(), now))
      ensures !timerRunning ==> Compose(shown) == recElapsed || recElapsed < 0
    {
      var elapsed := if timerRunning then recElapsed + (now - startTime.value) else recElapsed;
      shown := SplitTime(elapsed);
      if elapsed >= 0 {
        SplitTimeRoundTrip(elapsed);
      }
    }
  }

  class AudioCallback {
    const instance: Gui

    constructor (instance: Gui)
      ensures this.instance == instance
    {
      this.instance := instance;
    }

    /** `monitor_callback`: the processed block goes back to the output device. */
    method MonitorCallback(inData: seq<Int16>) returns (outData: seq<Int16>)
      requires instance.Valid() && |inData| > 0
      modifies instance`peakLevelDb
      ensures instance.Valid()
      ensures (instance.Snapshot(), outData) == Fsm.MonitorCallback(old(instance.Snapshot()), inData)
    {
      var amplified := Amplify(inData, instance.currentGain);
      var peak := PeakAbs(amplified);
      if peak > 0 {
        instance.peakLevelDb := Some(LogPeak(peak));
      } else {
        instance.peakLevelDb := Some(SilenceFloor);
      }
      outData := amplified;
    }

    /**
     * `record_callback`, which PyAudio calls only while the capture stream
     * runs; sink-before-stream then guarantees an open file, so the wait for
     * `output_wavefile` never spins.
     */
    method RecordCallback(inData: seq<Int16>)
      requires instance.Valid() && instance.recordStream == Running && |inData| > 0
      modifies instance`peakLevelDb, instance`wavFrames
      ensures instance.Valid()
      ensures instance.Snapshot() == Fsm.RecordCallback(old(instance.Snapshot()), inData)
    {
      var amplified := Amplify(inData, instance.currentGain);
      var peak := PeakAbs(amplified);
      if peak > 0 {
        instance.peakLevelDb := Some(LogPeak(peak));
      } else {
        instance.peakLevelDb := Some(SilenceFloor);
      }
      assert instance.wavOpen;
      instance.wavFrames := instance.wavFrames + amplified;
    }
  }
}
