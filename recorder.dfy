/**
 * The recorder as the page runs it: one object whose fields are the
 * module-level variables, with a method per handler, click and frame tick.
 * Each method's new state is the matching `RecorderSpec` function of the
 * old state, where the properties of the recorder are proved.
 */
module RecorderMachine {
  import opened Optional
  import opened TimeFormat
  import opened Visualiser
  import opened PageParams
  import opened RecorderSpec

  class Recorder {
    var state: Phase
    var chunks: seq<nat>
    var blob: Option<nat>
    var hasUrl: bool
    var duration: nat
    var hasAudioElement: bool
    var dataPoints: seq<real>
    var recorder: RecorderPhase
    var hasStream: bool
    var analyser: bool
    var ui: Ui

    /** The recorder's variables as one value. */
    function Snap(): Snapshot
      reads this
    {
      Snapshot(state, chunks, blob, hasUrl, duration, hasAudioElement, dataPoints, recorder,
               hasStream, analyser, ui)
    }

    ghost predicate Valid()
      reads this
    {
      Inv(Snap())
    }

    /** Page load: `IDLE`, then `updateUI()`. */
    constructor ()
      ensures Snap() == Initial() && Valid()
    {
      state, chunks, blob, hasUrl, duration := Idle, [], None, false, 0;
      hasAudioElement, dataPoints, recorder, hasStream, analyser := false, [], NoRecorder, false, false;
      ui := Ui(MicIcon, Plain, true, true, "00:00", None);
      new;
      UpdateUI();
    }

    method UpdateUI()
      modifies this
      ensures Snap() == RecorderSpec.UpdateUI(old(Snap()))
    {
      match state
      case Idle =>
        ui := ui.(icon := MicIcon, highlight := Plain, resetDisabled := true, sendDisabled := true, timer := "00:00");
      case Recording =>
        ui := ui.(icon := StopIcon, highlight := RecordingHighlight, resetDisabled := true, sendDisabled := true);
      case Stopped =>
        ui := ui.(icon := PlayIcon, highlight := Plain, resetDisabled := false, sendDisabled := false,
                  timer := FormatTime(duration));
      case Playing =>
        ui := ui.(icon := StopIcon, highlight := PlayingHighlight, resetDisabled := false, sendDisabled := false);
    }

    method ShowAlert(n: Notice)
      modifies this
      ensures Snap() == WithAlert(old(Snap()), n)
    {
      ui := ui.(alert := Some(n));
    }

    method ResetRecording()
      modifies this
      ensures Snap() == Reset(old(Snap())) && Valid()
    {
      ghost var before := Snap();
      var stopped := if recorder == Active then Inactive else recorder;
      hasAudioElement, recorder, hasStream := false, stopped, false;
      chunks, blob, hasUrl, dataPoints, duration := [], None, false, [], 0;
      state := Idle;
      assert Snap() == before.(state := Idle, chunks := [], blob := None, hasUrl := false, duration := 0,
                               hasAudioElement := false, dataPoints := [], recorder := stopped, hasStream := false);
      UpdateUI();
    }

    /** `drawWaveform`: sum the frame, push its mean, and say whether to draw again. */
    method DrawWaveform(frame: seq<byte>) returns (rearm: bool)
      requires Valid()
      modifies this
      ensures Valid()
      ensures Snap() == Draw(old(Snap()), frame)
      ensures rearm == DrawRearms(old(Snap()))
    {
      if !analyser {
        return false;
      }
      var sum := FrameSum(frame);
      var average := if |frame| > 0 then sum as real / |frame| as real else 0.0;
      dataPoints := dataPoints + [average];
      if |dataPoints| > MAX_DATA_POINTS {
        dataPoints := dataPoints[1..];
      }
      rearm := state == Recording || state == Playing;
    }

    method StartVisualization(frame: seq<byte>)
      requires Valid()
      modifies this
      ensures Valid()
      ensures Snap() == RecorderSpec.StartVisualization(old(Snap()), frame)
    {
      dataPoints := [];
      if (state == Recording && recorder != NoRecorder) || (state == Playing && hasAudioElement) {
        analyser := true;
        var _ := DrawWaveform(frame);
      }
    }

    /** `updateTimer`, with the time elapsed since the running session began. */
    method UpdateTimer(elapsed: nat) returns (rearm: bool)
      requires Valid()
      modifies this
      ensures Valid()
      ensures Snap() == Timer(old(Snap()), elapsed)
      ensures rearm == TimerRearms(old(Snap()), elapsed)
    {
      rearm := false;
      if state == Recording {
        ui := ui.(timer := FormatTime(elapsed));
        rearm := true;
      } else if state == Playing {
        ghost var before := Snap();
        var shown := elapsed;
        if elapsed >= duration {
          shown := duration;
          StopPlayback(false);
          assert Snap() == RecorderSpec.StopPlayback(before, false) && state == Stopped;
        }
        ui := ui.(timer := FormatTime(shown));
        assert shown == Clamp(elapsed, before.duration);
        rearm := state == Playing;
      }
    }

    /** `startRecording` after `getUserMedia` has settled. */
    method OnMicrophone(outcome: MicOutcome)
      requires Valid()
      modifies this
      ensures Valid()
      ensures Snap() == RecorderSpec.OnMicrophone(old(Snap()), outcome)
    {
      match outcome
      case Granted =>
        recorder := Active;
        hasStream := true;
        chunks := [];
        dataPoints := [];
      case Denied =>
        ShowAlert(MicrophoneDenied);
        ResetRecording();
      case Unavailable =>
        ShowAlert(MicrophoneUnavailable);
        ResetRecording();
    }

    method OnRecorderStart(frame: seq<byte>)
      requires Valid()
      modifies this
      ensures Valid()
      ensures Snap() == RecorderSpec.OnRecorderStart(old(Snap()), frame)
    {
      state := Recording;
      var _ := UpdateTimer(0);
      StartVisualization(frame);
      UpdateUI();
    }

    method OnDataAvailable(size: nat)
      requires Valid()
      modifies this
      ensures Valid()
      ensures Snap() == RecorderSpec.OnDataAvailable(old(Snap()), size)
    {
      if size > 0 {
        chunks := chunks + [size];
      }
    }

    method StopRecording()
      requires Valid()
      modifies this
      ensures Valid()
      ensures Snap() == RecorderSpec.StopRecording(old(Snap()))
    {
      if state != Recording || recorder == NoRecorder {
        return;
      }
      recorder := Inactive;
    }

    method OnRecorderStop()
      requires Valid()
      modifies this
      ensures Valid()
      ensures Snap() == RecorderSpec.OnRecorderStop(old(Snap()))
    {
      hasStream := false;
      if chunks == [] {
        ShowAlert(EmptyTake);
        ResetRecording();
        return;
      }
      blob := Some(TotalSize(chunks));
      if blob.value > MIN_TAKE_BYTES {
        hasUrl := true;
      } else {
        ShowAlert(ShortTake);
        ResetRecording();
      }
    }

    method OnRecorderError()
      requires Valid()
      modifies this
      ensures Valid()
      ensures Snap() == RecorderSpec.OnRecorderError(old(Snap()))
    {
      ShowAlert(CaptureError);
      ResetRecording();
    }

    method OnMetadata(meta: Metadata)
      requires Valid()
      modifies this
      ensures Valid()
      ensures Snap() == RecorderSpec.OnMetadata(old(Snap()), meta)
    {
      ghost var before := Snap();
      duration := match meta case Loaded(ms) => ms case LoadFailed => 0;
      state := Stopped;
      assert Snap() == before.(duration := duration, state := Stopped);
      UpdateUI();
    }

    method StartPlayback()
      requires Valid()
      modifies this
      ensures Valid()
      ensures Snap() == RecorderSpec.StartPlayback(old(Snap()))
    {
      if state != Stopped || !hasUrl {
        return;
      }
      hasAudioElement := true;
    }

    method OnCanPlayThrough(frame: seq<byte>)
      requires Valid()
      modifies this
      ensures Valid()
      ensures Snap() == RecorderSpec.OnCanPlayThrough(old(Snap()), frame)
    {
      state := Playing;
      if !hasAudioElement {
        return;
      }
      StartVisualization(frame);
      var _ := UpdateTimer(0);
      UpdateUI();
    }

    method OnEnded()
      requires Valid()
      modifies this
      ensures Valid()
      ensures Snap() == RecorderSpec.OnEnded(old(Snap()))
    {
      StopPlayback(false);
    }

    method OnPlaybackError()
      requires Valid()
      modifies this
      ensures Valid()
      ensures Snap() == RecorderSpec.OnPlaybackError(old(Snap()))
    {
      ShowAlert(PlaybackError);
      StopPlayback(true);
    }

    method StopPlayback(encounteredError: bool)
      requires Valid()
      modifies this
      ensures Valid()
      ensures Snap() == RecorderSpec.StopPlayback(old(Snap()), encounteredError)
    {
      if state != Playing && !hasAudioElement {
        return;
      }
      ghost var before := Snap();
      if encounteredError {
        state := if blob.Some? then Stopped else Idle;
      } else {
        state := Stopped;
      }
      assert Snap() == before.(state := state);
      UpdateUI();
    }

    method RecordClick()
      requires Valid()
      modifies this
      ensures Valid()
      ensures Snap() == RecorderSpec.RecordClick(old(Snap()))
    {
      match state
      case Idle =>
        ResetRecording();
      case Stopped =>
        if hasUrl {
          StartPlayback();
        } else {
          ResetRecording();
        }
      case Recording =>
        StopRecording();
      case Playing =>
        StopPlayback(false);
    }

    method ResetClick()
      requires Valid()
      modifies this
      ensures Valid()
      ensures Snap() == RecorderSpec.ResetClick(old(Snap()))
    {
      ResetRecording();
      ShowAlert(TakeDiscarded);
    }

    /**
     * `sendBtn.onclick` up to the `fetch`; `decision` is what would be posted.
     * It keeps the source's "too short" branch, which no valid recorder
     * reaches, so validity is an antecedent here rather than a precondition.
     */
    method SendClick(formId: string, imageSrc: string) returns (decision: SubmitDecision)
      modifies this
      ensures Snap() == RecorderSpec.SendClick(old(Snap()), formId, imageSrc)
      ensures decision == SendDecision(old(Snap()), formId, imageSrc)
      ensures old(Valid()) ==> Valid() && decision != Rejected(TakeTooShortToSend)
    {
      if state != Stopped || blob.None? {
        ShowAlert(NoTakeToSend);
        return Rejected(NoTakeToSend);
      }
      if blob.value < MIN_TAKE_BYTES {
        ShowAlert(TakeTooShortToSend);
        return Rejected(TakeTooShortToSend);
      }
      ui := ui.(sendDisabled := true);
      decision := Upload(Payload(formId, ImageName(imageSrc), AudioFileName(formId), blob.value));
    }

    method OnSendResult(outcome: SendOutcome)
      requires Valid()
      modifies this
      ensures Valid()
      ensures Snap() == RecorderSpec.OnSendResult(old(Snap()), outcome)
    {
      match outcome
      case Delivered =>
        ShowAlert(TakeSent);
        ResetRecording();
      case HttpError(status) =>
        ShowAlert(UploadRejected(status));
        ui := ui.(sendDisabled := false);
      case NetworkError =>
        ShowAlert(UploadNetworkError);
        ui := ui.(sendDisabled := false);
    }
  }
}
