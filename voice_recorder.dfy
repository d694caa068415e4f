/**
 * The microphone button (src/components/VoiceRecorder.tsx): the
 * idle / recording / processing states, the one-second duration counter
 * and the file name a finished recording is copied to. The audio APIs are
 * reduced to how each awaited call ended; playback and rendering are not
 * modelled.
 */
module VoiceRecorder {
  import opened JsValues
  import opened Strings

  // ---------------------------------------------------------------------
  // formatDuration
  // ---------------------------------------------------------------------

  /** `n.toString().padStart(2, '0')`. */
  function TwoDigits(n: nat): string {
    PadStart2(NatToDecimal(n))
  }

  /** Below 100 the padded form is exactly two digits and reads back as `n`. */
  lemma TwoDigitsValue(n: nat)
    requires n < 100
    ensures |TwoDigits(n)| == 2 && AllDigits(TwoDigits(n))
    ensures DigitsValue(TwoDigits(n)) == n
  {
    NatToDecimalLength(n);
    NatToDecimalRoundTrip(n);
    var d := NatToDecimal(n);
    if n < 10 {
      var r := TwoDigits(n);
      assert r == "0" + d;
      assert r[..1] == "0";
      assert DigitsValue(r[..1]) == 0;
      assert DigitsValue(d) == DigitsValue(d[..0]) + (d[0] as int - '0' as int);
    }
  }

  /** `formatDuration`: whole minutes, a colon and the remaining seconds, each padded to two digits. */
  function FormatDuration(seconds: nat): (r: string)
    ensures seconds < 6000 ==>
      && |r| == 5 && r[2] == ':'
      && AllDigits(r[..2]) && AllDigits(r[3..])
      && DigitsValue(r[..2]) == seconds / 60
      && DigitsValue(r[3..]) == seconds % 60
  {
    var r := TwoDigits(seconds / 60) + ":" + TwoDigits(seconds % 60);
    if seconds < 6000 then
      TwoDigitsValue(seconds / 60);
      TwoDigitsValue(seconds % 60);
      assert r[..2] == TwoDigits(seconds / 60);
      assert r[3..] == TwoDigits(seconds % 60);
      r
    else r
  }

  /** Reading the display back as minutes and seconds gives the duration it shows. */
  lemma FormatDurationRoundTrip(seconds: nat)
    requires seconds < 6000
    ensures var r := FormatDuration(seconds);
      60 * DigitsValue(r[..2]) + DigitsValue(r[3..]) == seconds
  {
  }

  /** Two durations below 100 minutes that display alike are equal. */
  lemma FormatDurationInjective(a: nat, b: nat)
    requires a < 6000 && b < 6000
    requires FormatDuration(a) == FormatDuration(b)
    ensures a == b
  {
    FormatDurationRoundTrip(a);
    FormatDurationRoundTrip(b);
  }

  // ---------------------------------------------------------------------
  // The saved file
  // ---------------------------------------------------------------------

  /** `${x}` for `FileSystem.documentDirectory`, which is a string or null. */
  function DirectoryText(dir: Option<string>): string {
    match dir
    case Some(d) => d
    case None => "null"
  }

  /** `${documentDirectory}recording-${Date.now()}.wav`. */
  function FinalUri(dir: Option<string>, stamp: string): (uri: string)
    ensures DirectoryText(dir) <= uri
    ensures |uri| >= 4 && uri[|uri| - 4..] == ".wav"
    ensures uri[|DirectoryText(dir)|..] == "recording-" + stamp + ".wav"
  {
    DirectoryText(dir) + "recording-" + stamp + ".wav"
  }

  /** How `startRecording`'s awaited calls ended. */
  datatype StartOutcome =
    | PermissionDenied
    | StartThrew   // requesting permission, setting the audio mode, preparing or starting threw
    | Started

  /** How `stopRecording`'s awaited calls ended once the recording existed. */
  datatype StopOutcome =
    | UnloadThrew                                  // `stopAndUnloadAsync` threw: the recording is kept
    | Unloaded(rawUri: Option<string>, laterThrew: bool) // `laterThrew`: the audio mode, copy or file-info call threw

  /** The stop succeeds when the recording had a URI and nothing after the unload threw. */
  predicate StopSucceeds(outcome: StopOutcome) {
    outcome.Unloaded? && Truthy(outcome.rawUri) && !outcome.laterThrew
  }

  // ---------------------------------------------------------------------
  // Component state
  // ---------------------------------------------------------------------

  class VoiceRecorderState {
    var isRecording: bool
    var isProcessing: bool
    var recordedAudioUri: Option<string>
    var recordingDuration: int
    /** `recordingRef.current !== null`. */
    var hasRecording: bool
    /** `timerRef.current !== null`. */
    var timerActive: bool

    /**
     * Between handler calls: the timer runs exactly while recording, a
     * recording object exists while recording, nothing is being processed
     * and the duration is a count of ticks.
     */
    predicate Valid()
      reads this
    {
      (isRecording <==> timerActive) && (isRecording ==> hasRecording) && !isProcessing && recordingDuration >= 0
    }

    constructor()
      ensures Valid() && !isRecording && !hasRecording
      ensures recordedAudioUri == None && recordingDuration == 0
    {
      isRecording := false;
      isProcessing := false;
      recordedAudioUri := None;
      recordingDuration := 0;
      hasRecording := false;
      timerActive := false;
    }

    /** `startRecording`: only a start that got through every call begins recording, from zero, with the timer on. */
    method StartRecording(outcome: StartOutcome)
      requires Valid()
      modifies this
      ensures Valid()
      ensures outcome != Started ==> unchanged(this)
      ensures outcome == Started ==>
        isRecording && hasRecording && timerActive && recordingDuration == 0
        && recordedAudioUri == old(recordedAudioUri)
    {
      if outcome == Started {
        hasRecording := true;
        isRecording := true;
        recordingDuration := 0;
        timerActive := true;
      }
    }

    /** One interval callback: the duration grows by exactly one second while the timer runs. */
    method Tick()
      modifies this
      ensures timerActive ==> recordingDuration == old(recordingDuration) + 1
      ensures !timerActive ==> recordingDuration == old(recordingDuration)
      ensures isRecording == old(isRecording) && isProcessing == old(isProcessing) && hasRecording == old(hasRecording)
      ensures timerActive == old(timerActive) && recordedAudioUri == old(recordedAudioUri)
    {
      if timerActive {
        recordingDuration := recordingDuration + 1;
      }
    }

    /** The synchronous start of `stopRecording`: without a recording nothing happens; otherwise processing begins and the timer stops. */
    method BeginStop() returns (active: bool)
      modifies this
      ensures active <==> old(hasRecording)
      ensures !active ==> unchanged(this)
      ensures active ==> !isRecording && isProcessing && !timerActive && hasRecording
      ensures recordedAudioUri == old(recordedAudioUri) && recordingDuration == old(recordingDuration)
    {
      if !hasRecording {
        return false;
      }
      isRecording := false;
      isProcessing := true;
      timerActive := false;
      active := true;
    }

    /**
     * The rest of `stopRecording`: processing ends on every outcome; on
     * success the copied file's URI is stored and handed to the caller.
     */
    method FinishStop(outcome: StopOutcome, dir: Option<string>, stamp: string) returns (completed: Option<string>)
      requires !isRecording && !timerActive && recordingDuration >= 0
      modifies this
      ensures Valid()
      ensures completed.Some? <==> StopSucceeds(outcome)
      ensures StopSucceeds(outcome) ==>
        completed == Some(FinalUri(dir, stamp)) && recordedAudioUri == completed
      ensures !StopSucceeds(outcome) ==> recordedAudioUri == old(recordedAudioUri)
      ensures hasRecording <==> outcome == UnloadThrew && old(hasRecording)
      ensures recordingDuration == old(recordingDuration) && !isRecording
    {
      isProcessing := false;
      completed := None;
      if outcome.UnloadThrew? {
        return;
      }
      hasRecording := false;
      if StopSucceeds(outcome) {
        var finalUri := FinalUri(dir, stamp);
        recordedAudioUri := Some(finalUri);
        completed := Some(finalUri);
      }
    }

    /** `stopRecording`. */
    method StopRecording(outcome: StopOutcome, dir: Option<string>, stamp: string) returns (completed: Option<string>)
      requires Valid()
      modifies this
      ensures Valid() && !isRecording
      ensures !old(hasRecording) ==> unchanged(this) && completed == None
      ensures old(hasRecording) ==>
        && (completed.Some? <==> StopSucceeds(outcome))
        && (StopSucceeds(outcome) ==> completed == Some(FinalUri(dir, stamp)) && recordedAudioUri == completed)
        && (!StopSucceeds(outcome) ==> recordedAudioUri == old(recordedAudioUri))
        && (hasRecording <==> outcome == UnloadThrew)
      ensures recordingDuration == old(recordingDuration)
    {
      var active := BeginStop();
      if !active {
        return None;
      }
      completed := FinishStop(outcome, dir, stamp);
    }

    /** `handlePress`: stop while recording, start when idle. */
    method HandlePress(start: StartOutcome, stop: StopOutcome, dir: Option<string>, stamp: string)
      returns (completed: Option<string>)
      requires Valid()
      modifies this
      ensures Valid()
      ensures old(isRecording) ==> !isRecording && (completed.Some? <==> StopSucceeds(stop))
      ensures old(isRecording) && StopSucceeds(stop) ==>
        completed == Some(FinalUri(dir, stamp)) && recordedAudioUri == completed
      ensures old(isRecording) && !StopSucceeds(stop) ==> recordedAudioUri == old(recordedAudioUri)
      ensures !old(isRecording) ==> completed == None && recordedAudioUri == old(recordedAudioUri)
      ensures !old(isRecording) && start != Started ==> unchanged(this)
      ensures !old(isRecording) && start == Started ==> isRecording && timerActive && recordingDuration == 0
    {
      completed := None;
      if isRecording {
        completed := StopRecording(stop, dir, stamp);
      } else if !isProcessing {
        StartRecording(start);
      }
    }
  }
}
