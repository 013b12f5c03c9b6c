/**
 * The single-take recorder as values: a `Snapshot` holds every module-level
 * variable the handlers read or write, and each handler, button click and
 * animation-frame tick is a function from the snapshot before to the
 * snapshot after. Browser callbacks take their outcome as a parameter and
 * may arrive in any state, as nothing in the handlers checks which take
 * they belong to.
 */
module RecorderSpec {
  import opened Optional
  import opened TimeFormat
  import opened Visualiser
  import opened PageParams

  /** `STATES`. */
  datatype Phase = Idle | Recording | Stopped | Playing

  /** The `state` of the current `MediaRecorder`, or none created yet. */
  datatype RecorderPhase = NoRecorder | Inactive | Active

  /** The record button's icon and its `recording` / `playing` class. */
  datatype Icon = MicIcon | StopIcon | PlayIcon
  datatype Highlight = Plain | RecordingHighlight | PlayingHighlight

  /** The messages `showAlert` displays. */
  datatype Notice =
    | EmptyTake | ShortTake | CaptureError | MicrophoneDenied | MicrophoneUnavailable
    | PlaybackError | TakeDiscarded | NoTakeToSend | TakeTooShortToSend | TakeSent
    | UploadRejected(status: nat) | UploadNetworkError

  /** What the page shows: buttons, timer text and the last alert. */
  datatype Ui = Ui(icon: Icon, highlight: Highlight, resetDisabled: bool, sendDisabled: bool,
                   timer: string, alert: Option<Notice>)

  datatype Snapshot = Snapshot(
    state: Phase,             // currentState
    chunks: seq<nat>,         // sizes of audioChunks
    blob: Option<nat>,        // size of audioBlob
    hasUrl: bool,             // audioUrl is set
    duration: nat,            // audioDuration, in milliseconds
    hasAudioElement: bool,    // currentAudioElement is set
    dataPoints: seq<real>,    // audioDataPoints
    recorder: RecorderPhase,  // mediaRecorder.state
    hasStream: bool,          // the tracks of mediaRecorder.stream are live (not yet stopped)
    analyser: bool,           // analyser and dataArray exist
    ui: Ui)

  /** Outcome of `getUserMedia` and the set-up after it. */
  datatype MicOutcome = Granted | Denied | Unavailable
  /** Outcome of loading the take's metadata: `onloadedmetadata` or `onerror`. */
  datatype Metadata = Loaded(ms: nat) | LoadFailed
  /** Outcome of the upload: an ok response, another response, or a rejected `fetch`. */
  datatype SendOutcome = Delivered | HttpError(status: nat) | NetworkError

  /** The fields of the multipart upload. */
  datatype Payload = Payload(id: string, imageName: string, fileName: string, audioSize: nat)
  datatype SubmitDecision = Rejected(notice: Notice) | Upload(payload: Payload)

  /** The smallest blob kept as a take (`audioBlob.size > 1000`), also the send bound. */
  const MIN_TAKE_BYTES: nat := 1000

  /** The size of `new Blob(audioChunks)`: the sizes of the chunks added up. */
  function TotalSize(chunks: seq<nat>): (total: nat)
    ensures forall i :: 0 <= i < |chunks| ==> chunks[i] <= total
    ensures chunks == [] ==> total == 0
  {
    if chunks == [] then 0 else TotalSize(chunks[..|chunks| - 1]) + chunks[|chunks| - 1]
  }

  /** Appending chunks adds their sizes to the blob's. */
  lemma {:induction false} TotalSizeAppend(a: seq<nat>, b: seq<nat>)
    ensures TotalSize(a + b) == TotalSize(a) + TotalSize(b)
    decreases |b|
  {
    if b != [] {
      assert (a + b)[..|a + b| - 1] == a + b[..|b| - 1];
      TotalSizeAppend(a, b[..|b| - 1]);
    } else {
      assert a + b == a;
    }
  }

  /** `showAlert`: the notice is shown and nothing but the alert changes. */
  function WithAlert(s: Snapshot, n: Notice): (r: Snapshot)
    ensures r.ui.alert == Some(n)
    ensures r == s.(ui := r.ui) && r.ui.(alert := s.ui.alert) == s.ui
  {
    s.(ui := s.ui.(alert := Some(n)))
  }

  /** `updateUI`: the buttons and timer text for a state. */
  function View(state: Phase, duration: nat, ui: Ui): (r: Ui)
    ensures r.resetDisabled <==> state == Idle || state == Recording
    ensures r.sendDisabled <==> state == Idle || state == Recording
    ensures r.icon == StopIcon <==> state == Recording || state == Playing
    ensures state == Idle ==> r.timer == "00:00"
    ensures state == Stopped ==> r.timer == FormatTime(duration)
    ensures state == Recording || state == Playing ==> r.timer == ui.timer
    ensures r.alert == ui.alert
  {
    match state
    case Idle => ui.(icon := MicIcon, highlight := Plain, resetDisabled := true, sendDisabled := true, timer := "00:00")
    case Recording => ui.(icon := StopIcon, highlight := RecordingHighlight, resetDisabled := true, sendDisabled := true)
    case Stopped => ui.(icon := PlayIcon, highlight := Plain, resetDisabled := false, sendDisabled := false,
                        timer := FormatTime(duration))
    case Playing => ui.(icon := StopIcon, highlight := PlayingHighlight, resetDisabled := false, sendDisabled := false)
  }

  /** `updateUI`: only the page changes, and the alert shown stays. */
  function UpdateUI(s: Snapshot): (r: Snapshot)
    ensures r == s.(ui := r.ui) && r.ui.alert == s.ui.alert
    ensures r.ui.sendDisabled <==> s.state == Idle || s.state == Recording
  {
    s.(ui := View(s.state, s.duration, s.ui))
  }

  /** The page after load: `IDLE`, nothing recorded, then `updateUI()`. */
  function Initial(): (r: Snapshot)
    ensures r.state == Idle && r.blob.None? && !r.hasUrl && r.chunks == [] && r.dataPoints == []
    ensures r.ui.timer == "00:00" && r.ui.resetDisabled && r.ui.sendDisabled && r.ui.alert.None?
  {
    UpdateUI(Snapshot(Idle, [], None, false, 0, false, [], NoRecorder, false, false,
                      Ui(MicIcon, Plain, true, true, "00:00", None)))
  }

  /** `resetRecording`: tear everything down and return to `IDLE`. */
  function Reset(s: Snapshot): (r: Snapshot)
    ensures r.state == Idle && r.chunks == [] && r.blob.None? && !r.hasUrl && r.duration == 0
    ensures !r.hasAudioElement && r.dataPoints == [] && !r.hasStream
    ensures r.recorder != Active && (r.recorder == NoRecorder <==> s.recorder == NoRecorder)
    ensures r.ui.timer == "00:00" && r.ui.resetDisabled && r.ui.sendDisabled && r.ui.alert == s.ui.alert
    ensures r.analyser == s.analyser
  {
    // `mediaRecorder.stop()` only when it is recording; its `onstop` comes later, as an event.
    var recorder := if s.recorder == Active then Inactive else s.recorder;
    UpdateUI(s.(state := Idle, chunks := [], blob := None, hasUrl := false, duration := 0,
                hasAudioElement := false, dataPoints := [], recorder := recorder, hasStream := false))
  }

  /** One `drawWaveform` frame: push the frame's mean, unless no analyser exists yet. */
  function Draw(s: Snapshot, frame: seq<byte>): (r: Snapshot)
    ensures r == s.(dataPoints := r.dataPoints)
    ensures !s.analyser ==> r.dataPoints == s.dataPoints
    ensures s.analyser ==> |r.dataPoints| > 0 && r.dataPoints[|r.dataPoints| - 1] == Mean(frame)
    ensures |s.dataPoints| <= MAX_DATA_POINTS ==> |r.dataPoints| <= MAX_DATA_POINTS
  {
    if !s.analyser then s else s.(dataPoints := Push(s.dataPoints, Mean(frame)))
  }

  /** Whether `drawWaveform` schedules its next frame. */
  predicate DrawRearms(s: Snapshot)
  {
    s.analyser && (s.state == Recording || s.state == Playing)
  }

  /**
   * The guard of `startVisualization`: recording with a recorder, or playing
   * with an audio element. `mediaRecorder.stream` is a read-only attribute,
   * so the `mediaRecorder.stream = null` of `onstop` and `resetRecording`
   * leaves it set: once a recorder exists, the stream test always passes.
   */
  predicate HasLiveSource(s: Snapshot)
  {
    (s.state == Recording && s.recorder != NoRecorder) || (s.state == Playing && s.hasAudioElement)
  }

  /**
   * `startVisualization`: clear the window; if there is a live source for the
   * current state, (re)build the analyser and draw the first frame.
   */
  function StartVisualization(s: Snapshot, frame: seq<byte>): (r: Snapshot)
    ensures r == s.(dataPoints := r.dataPoints, analyser := r.analyser)
    ensures HasLiveSource(s) ==> r.analyser && r.dataPoints == [Mean(frame)]
    ensures !HasLiveSource(s) ==> r.analyser == s.analyser && r.dataPoints == []
  {
    var cleared := s.(dataPoints := []);
    if HasLiveSource(s) then Draw(cleared.(analyser := true), frame) else cleared
  }

  /** `stopPlayback(encounteredError)`. */
  function StopPlayback(s: Snapshot, encounteredError: bool): (r: Snapshot)
    ensures s.state != Playing && !s.hasAudioElement ==> r == s
    ensures (s.state == Playing || s.hasAudioElement) && !encounteredError ==> r.state == Stopped
    ensures (s.state == Playing || s.hasAudioElement) && encounteredError ==>
      r.state == (if s.blob.Some? then Stopped else Idle)
    ensures r.chunks == s.chunks && r.blob == s.blob && r.hasUrl == s.hasUrl && r.duration == s.duration
    ensures r.hasAudioElement == s.hasAudioElement && r.dataPoints == s.dataPoints
    ensures r.recorder == s.recorder && r.hasStream == s.hasStream
  {
    if s.state != Playing && !s.hasAudioElement then s
    else
      var next := if encounteredError then (if s.blob.Some? then Stopped else Idle) else Stopped;
      UpdateUI(s.(state := next))
  }

  /** The time `updateTimer` shows while playing: elapsed, clamped to the duration. */
  function Clamp(elapsed: nat, duration: nat): (r: nat)
    ensures r <= elapsed && r <= duration
    ensures r == elapsed || r == duration
  {
    if elapsed >= duration then duration else elapsed
  }

  /**
   * One `updateTimer` frame, `elapsed` being `Date.now()` minus the start
   * stamp of the running recording or playback.
   */
  function Timer(s: Snapshot, elapsed: nat): (r: Snapshot)
    ensures s.state == Recording ==> r == s.(ui := s.ui.(timer := FormatTime(elapsed)))
    ensures s.state == Playing ==> r.ui.timer == FormatTime(Clamp(elapsed, s.duration)) && Clamp(elapsed, s.duration) <= s.duration
    ensures s.state == Playing ==> (r.state == Stopped <==> elapsed >= s.duration)
    ensures s.state == Playing ==> (r.state == Playing <==> elapsed < s.duration)
    ensures s.state == Playing ==> r.blob == s.blob && r.duration == s.duration && r.hasUrl == s.hasUrl
    ensures s.state == Idle || s.state == Stopped ==> r == s
    ensures r.dataPoints == s.dataPoints && r.analyser == s.analyser && r.hasAudioElement == s.hasAudioElement
  {
    match s.state
    case Recording => s.(ui := s.ui.(timer := FormatTime(elapsed)))
    case Playing =>
      var after := if elapsed >= s.duration then StopPlayback(s, false) else s;
      after.(ui := after.ui.(timer := FormatTime(Clamp(elapsed, s.duration))))
    case _ => s
  }

  /** Whether `updateTimer` schedules its next frame. */
  predicate TimerRearms(s: Snapshot, elapsed: nat)
  {
    s.state == Recording || (s.state == Playing && elapsed < s.duration)
  }

  /** The guard of `startRecording`. */
  predicate CanStartRecording(s: Snapshot)
  {
    s.state == Idle || s.state == Stopped
  }

  /** The rest of `startRecording`, once `getUserMedia` has settled. */
  function OnMicrophone(s: Snapshot, outcome: MicOutcome): (r: Snapshot)
    ensures outcome == Granted ==>
      r == s.(recorder := Active, hasStream := true, chunks := [], dataPoints := [])
    ensures outcome == Denied ==> r == Reset(WithAlert(s, MicrophoneDenied))
    ensures outcome == Unavailable ==> r == Reset(WithAlert(s, MicrophoneUnavailable))
  {
    match outcome
    case Granted => s.(recorder := Active, hasStream := true, chunks := [], dataPoints := [])
    case Denied => Reset(WithAlert(s, MicrophoneDenied))
    case Unavailable => Reset(WithAlert(s, MicrophoneUnavailable))
  }

  /** `mediaRecorder.onstart`. */
  function OnRecorderStart(s: Snapshot, frame: seq<byte>): (r: Snapshot)
    ensures r.state == Recording && r.ui.timer == FormatTime(0) && r.ui.resetDisabled && r.ui.sendDisabled
    ensures |r.dataPoints| <= 1
    ensures s.recorder != NoRecorder ==> r.analyser && r.dataPoints == [Mean(frame)]
    ensures s.recorder == NoRecorder ==> r.dataPoints == [] && r.analyser == s.analyser
    ensures r.chunks == s.chunks && r.blob == s.blob && r.hasUrl == s.hasUrl
  {
    var recording := Timer(s.(state := Recording), 0);
    UpdateUI(StartVisualization(recording, frame))
  }

  /** `mediaRecorder.ondataavailable`: keep non-empty chunks. */
  function OnDataAvailable(s: Snapshot, size: nat): (r: Snapshot)
    ensures r.chunks == if size > 0 then s.chunks + [size] else s.chunks
    ensures r == s.(chunks := r.chunks)
  {
    if size > 0 then s.(chunks := s.chunks + [size]) else s
  }

  /** `stopRecording`: ask the recorder to stop; `onstop` follows as its own event. */
  function StopRecording(s: Snapshot): (r: Snapshot)
    ensures s.state != Recording || s.recorder == NoRecorder ==> r == s
    ensures s.state == Recording && s.recorder != NoRecorder ==> r == s.(recorder := Inactive)
  {
    if s.state != Recording || s.recorder == NoRecorder then s
    else s.(recorder := Inactive)
  }

  /** `mediaRecorder.onstop`: release the microphone and keep the take if it is big enough. */
  function OnRecorderStop(s: Snapshot): (r: Snapshot)
    ensures !r.hasStream
    ensures s.chunks == [] ==> r == Reset(WithAlert(s.(hasStream := false), EmptyTake))
    ensures TotalSize(s.chunks) <= MIN_TAKE_BYTES ==>
      r.state == Idle && r.blob.None? && !r.hasUrl && r.chunks == [] && r.ui.alert.Some?
    ensures s.chunks != [] && TotalSize(s.chunks) <= MIN_TAKE_BYTES ==>
      r == Reset(WithAlert(s.(hasStream := false, blob := Some(TotalSize(s.chunks))), ShortTake))
    ensures TotalSize(s.chunks) > MIN_TAKE_BYTES ==>
      r == s.(hasStream := false, blob := Some(TotalSize(s.chunks)), hasUrl := true)
  {
    var released := s.(hasStream := false);
    if released.chunks == [] then Reset(WithAlert(released, EmptyTake))
    else
      var size := TotalSize(released.chunks);
      var sealed := released.(blob := Some(size));
      if size > MIN_TAKE_BYTES then sealed.(hasUrl := true)
      else Reset(WithAlert(sealed, ShortTake))
  }

  /** `mediaRecorder.onerror`. */
  function OnRecorderError(s: Snapshot): (r: Snapshot)
    ensures r.state == Idle && r.blob.None? && !r.hasUrl && r.recorder != Active && !r.hasStream
    ensures r.ui.alert == Some(CaptureError)
  {
    Reset(WithAlert(s, CaptureError))
  }

  /** `tempAudio.onloadedmetadata` / `tempAudio.onerror`: the take becomes `STOPPED`. */
  function OnMetadata(s: Snapshot, meta: Metadata): (r: Snapshot)
    ensures r.state == Stopped
    ensures r.duration == (if meta.Loaded? then meta.ms else 0)
    ensures r.ui.timer == FormatTime(r.duration) && !r.ui.sendDisabled && !r.ui.resetDisabled
    ensures r.blob == s.blob && r.hasUrl == s.hasUrl && r.chunks == s.chunks
  {
    var duration := match meta case Loaded(ms) => ms case LoadFailed => 0;
    UpdateUI(s.(duration := duration, state := Stopped))
  }

  /** `startPlayback` with `actuallyStartPlayback`: create the audio element. */
  function StartPlayback(s: Snapshot): (r: Snapshot)
    ensures !(s.state == Stopped && s.hasUrl) ==> r == s
    ensures s.state == Stopped && s.hasUrl ==> r == s.(hasAudioElement := true)
  {
    if s.state != Stopped || !s.hasUrl then s else s.(hasAudioElement := true)
  }

  /**
   * `oncanplaythrough`: enter `PLAYING`, then start the visualiser and the
   * timer. With no audio element (cleared by a reset) `play()` throws and the
   * handler ends right after setting the state.
   */
  function OnCanPlayThrough(s: Snapshot, frame: seq<byte>): (r: Snapshot)
    ensures !s.hasAudioElement ==> r == s.(state := Playing)
    ensures s.hasAudioElement ==> (r.state == Playing <==> s.duration > 0)
    ensures s.hasAudioElement && s.duration == 0 ==> r.state == Stopped
    ensures s.hasAudioElement ==> r.ui.timer == FormatTime(0) && |r.dataPoints| == 1
    ensures s.hasAudioElement ==> r.analyser && r.dataPoints == [Mean(frame)]
    ensures r.blob == s.blob && r.hasUrl == s.hasUrl && r.duration == s.duration
  {
    var playing := s.(state := Playing);
    if !playing.hasAudioElement then playing
    else
      var drawn := StartVisualization(playing, frame);
      assert drawn.analyser && drawn.dataPoints == [Mean(frame)] && drawn.duration == s.duration;
      UpdateUI(Timer(drawn, 0))
  }

  /** `onended`. */
  function OnEnded(s: Snapshot): (r: Snapshot)
    ensures s.state == Playing || s.hasAudioElement ==>
      r.state == Stopped && r.ui.timer == FormatTime(s.duration) && !r.ui.sendDisabled
    ensures s.state != Playing && !s.hasAudioElement ==> r == s
  {
    StopPlayback(s, false)
  }

  /** The audio element's `onerror`. */
  function OnPlaybackError(s: Snapshot): (r: Snapshot)
    ensures r.ui.alert == Some(PlaybackError)
    ensures s.state == Playing || s.hasAudioElement ==> r.state == (if s.blob.Some? then Stopped else Idle)
    ensures s.state != Playing && !s.hasAudioElement ==> r.state == s.state
    ensures r.blob == s.blob && r.hasUrl == s.hasUrl
  {
    StopPlayback(WithAlert(s, PlaybackError), true)
  }

  /** `recordBtn.onclick`. */
  function RecordClick(s: Snapshot): (r: Snapshot)
    ensures s.state == Stopped && s.hasUrl ==> r == StartPlayback(s) && r.hasAudioElement
    ensures s.state == Idle || (s.state == Stopped && !s.hasUrl) ==> r == Reset(s) && CanStartRecording(r)
    ensures s.state == Recording ==> r == StopRecording(s)
    ensures s.state == Playing ==> r == StopPlayback(s, false) && r.state == Stopped
  {
    match s.state
    case Idle => Reset(s)
    case Stopped => if s.hasUrl then StartPlayback(s) else Reset(s)
    case Recording => StopRecording(s)
    case Playing => StopPlayback(s, false)
  }

  /** `resetBtn.onclick`. */
  function ResetClick(s: Snapshot): (r: Snapshot)
    ensures r.state == Idle && r.blob.None? && !r.hasUrl && r.chunks == [] && r.dataPoints == []
    ensures !r.hasAudioElement && !r.hasStream && r.recorder != Active && r.duration == 0
    ensures r.ui.alert == Some(TakeDiscarded)
  {
    WithAlert(Reset(s), TakeDiscarded)
  }

  /** The checks in front of the upload and the fields it sends. */
  function SendDecision(s: Snapshot, formId: string, imageSrc: string): (r: SubmitDecision)
    ensures r.Upload? <==> s.state == Stopped && s.blob.Some? && s.blob.value >= MIN_TAKE_BYTES
    ensures r.Upload? ==>
      r.payload == Payload(formId, ImageName(imageSrc), formId + ".webm", s.blob.value)
    ensures s.state != Stopped || s.blob.None? ==> r == Rejected(NoTakeToSend)
    ensures s.state == Stopped && s.blob.Some? && s.blob.value < MIN_TAKE_BYTES ==> r == Rejected(TakeTooShortToSend)
  {
    if s.state != Stopped || s.blob.None? then Rejected(NoTakeToSend)
    else if s.blob.value < MIN_TAKE_BYTES then Rejected(TakeTooShortToSend)
    else Upload(Payload(formId, ImageName(imageSrc), AudioFileName(formId), s.blob.value))
  }

  /** `sendBtn.onclick` up to the `fetch`: alert on rejection, disable the button on upload. */
  function SendClick(s: Snapshot, formId: string, imageSrc: string): (r: Snapshot)
    ensures SendDecision(s, formId, imageSrc).Rejected? ==>
      r == WithAlert(s, SendDecision(s, formId, imageSrc).notice)
    ensures SendDecision(s, formId, imageSrc).Upload? ==> r == s.(ui := s.ui.(sendDisabled := true))
  {
    match SendDecision(s, formId, imageSrc)
    case Rejected(n) => WithAlert(s, n)
    case Upload(_) => s.(ui := s.ui.(sendDisabled := true))
  }

  /** The rest of `sendBtn.onclick`, once the `fetch` has settled. */
  function OnSendResult(s: Snapshot, outcome: SendOutcome): (r: Snapshot)
    ensures outcome == Delivered ==> r == Reset(WithAlert(s, TakeSent))
    ensures outcome.HttpError? ==> r.ui.alert == Some(UploadRejected(outcome.status))
    ensures outcome == NetworkError ==> r.ui.alert == Some(UploadNetworkError)
    ensures outcome != Delivered ==> r == s.(ui := r.ui) && !r.ui.sendDisabled
  {
    match outcome
    case Delivered => Reset(WithAlert(s, TakeSent))
    case HttpError(status) =>
      var alerted := WithAlert(s, UploadRejected(status));
      alerted.(ui := alerted.ui.(sendDisabled := false))
    case NetworkError =>
      var alerted := WithAlert(s, UploadNetworkError);
      alerted.(ui := alerted.ui.(sendDisabled := false))
  }

  /** Everything that can happen to the widget. */
  datatype Event =
    | MicResult(mic: MicOutcome)
    | RecorderStarted(frame: seq<byte>)
    | DataAvailable(size: nat)
    | RecorderStopped
    | RecorderFailed
    | MetadataResult(meta: Metadata)
    | CanPlayThrough(frame: seq<byte>)
    | Ended
    | PlaybackFailed
    | TimerFrame(elapsed: nat)
    | WaveFrame(frame: seq<byte>)
    | RecordPressed
    | ResetPressed
    | SendPressed(formId: string, imageSrc: string)
    | SendSettled(outcome: SendOutcome)

  function Step(s: Snapshot, e: Event): Snapshot
  {
    match e
    case MicResult(o) => OnMicrophone(s, o)
    case RecorderStarted(f) => OnRecorderStart(s, f)
    case DataAvailable(n) => OnDataAvailable(s, n)
    case RecorderStopped => OnRecorderStop(s)
    case RecorderFailed => OnRecorderError(s)
    case MetadataResult(m) => OnMetadata(s, m)
    case CanPlayThrough(f) => OnCanPlayThrough(s, f)
    case Ended => OnEnded(s)
    case PlaybackFailed => OnPlaybackError(s)
    case TimerFrame(t) => Timer(s, t)
    case WaveFrame(f) => Draw(s, f)
    case RecordPressed => RecordClick(s)
    case ResetPressed => ResetClick(s)
    case SendPressed(id, src) => SendClick(s, id, src)
    case SendSettled(o) => OnSendResult(s, o)
  }

  /** The snapshot after the events `es`, in order. */
  function Run(s: Snapshot, es: seq<Event>): Snapshot
    decreases |es|
  {
    if es == [] then s else Run(Step(s, es[0]), es[1..])
  }

  /**
   * What holds after every sequence of events: the window stays within
   * capacity, a blob is only kept when it passed the size check, a URL only
   * for a blob, an audio element only for a URL, live tracks of
   * `mediaRecorder.stream` only with a recorder.
   */
  ghost predicate Inv(s: Snapshot)
  {
    && |s.dataPoints| <= MAX_DATA_POINTS
    && (s.blob.Some? ==> s.blob.value > MIN_TAKE_BYTES)
    && (s.hasUrl ==> s.blob.Some?)
    && (s.hasAudioElement ==> s.hasUrl)
    && (s.hasStream ==> s.recorder != NoRecorder)
  }
}
