/**
 * Properties of the recorder that relate several handlers or hold across
 * whole runs of events.
 */
module RecorderProps {
  import opened Optional
  import opened TimeFormat
  import opened Visualiser
  import opened PageParams
  import opened RecorderSpec

  lemma InitialInv()
    ensures Inv(Initial())
  {
  }

  lemma MicrophoneKeepsInv(s: Snapshot, o: MicOutcome)
    requires Inv(s)
    ensures Inv(OnMicrophone(s, o))
  {
  }

  lemma RecorderStartKeepsInv(s: Snapshot, f: seq<byte>)
    requires Inv(s)
    ensures Inv(OnRecorderStart(s, f))
  {
  }

  lemma RecorderStopKeepsInv(s: Snapshot)
    requires Inv(s)
    ensures Inv(OnRecorderStop(s))
  {
  }

  lemma CanPlayThroughKeepsInv(s: Snapshot, f: seq<byte>)
    requires Inv(s)
    ensures Inv(OnCanPlayThrough(s, f))
  {
  }

  lemma TimerKeepsInv(s: Snapshot, t: nat)
    requires Inv(s)
    ensures Inv(Timer(s, t))
  {
  }

  lemma RecordClickKeepsInv(s: Snapshot)
    requires Inv(s)
    ensures Inv(RecordClick(s))
  {
  }

  lemma ResetClickKeepsInv(s: Snapshot)
    requires Inv(s)
    ensures Inv(ResetClick(s))
  {
  }

  lemma SendClickKeepsInv(s: Snapshot, id: string, src: string)
    requires Inv(s)
    ensures Inv(SendClick(s, id, src))
  {
  }

  lemma SendResultKeepsInv(s: Snapshot, o: SendOutcome)
    requires Inv(s)
    ensures Inv(OnSendResult(s, o))
  {
  }

  /** Every handler, click and frame keeps the invariant. */
  lemma StepPreservesInv(s: Snapshot, e: Event)
    requires Inv(s)
    ensures Inv(Step(s, e))
  {
    match e
    case MicResult(o) => MicrophoneKeepsInv(s, o);
    case RecorderStarted(f) => RecorderStartKeepsInv(s, f);
    case DataAvailable(n) =>
    case RecorderStopped => RecorderStopKeepsInv(s);
    case RecorderFailed =>
    case MetadataResult(m) =>
    case CanPlayThrough(f) => CanPlayThroughKeepsInv(s, f);
    case Ended =>
    case PlaybackFailed =>
    case TimerFrame(t) => TimerKeepsInv(s, t);
    case WaveFrame(f) =>
    case RecordPressed => RecordClickKeepsInv(s);
    case ResetPressed => ResetClickKeepsInv(s);
    case SendPressed(id, src) => SendClickKeepsInv(s, id, src);
    case SendSettled(o) => SendResultKeepsInv(s, o);
  }

  /** The invariant holds after any sequence of events. */
  lemma {:induction false} RunPreservesInv(s: Snapshot, es: seq<Event>)
    requires Inv(s)
    ensures Inv(Run(s, es))
    decreases |es|
  {
    if es != [] {
      StepPreservesInv(s, es[0]);
      RunPreservesInv(Step(s, es[0]), es[1..]);
    }
  }

  /** Resetting twice is resetting once. */
  lemma ResetIdempotent(s: Snapshot)
    ensures Reset(Reset(s)) == Reset(s)
  {
  }

  /**
   * A kept blob is always over 1000 bytes, so the send handler's
   * "too short" rejection (`size < 1000`) never fires in a reachable state.
   */
  lemma {:induction false} SendNeverTooShort(es: seq<Event>, formId: string, imageSrc: string)
    ensures SendDecision(Run(Initial(), es), formId, imageSrc) != Rejected(TakeTooShortToSend)
  {
    InitialInv();
    RunPreservesInv(Initial(), es);
  }

  /** Stopping a recording whose chunks total more than 1000 bytes ends in `STOPPED` once metadata settles. */
  lemma StopThenMetadata(s: Snapshot, meta: Metadata)
    requires s.state == Recording && s.recorder == Active
    requires TotalSize(s.chunks) > MIN_TAKE_BYTES
    ensures var r := OnMetadata(OnRecorderStop(RecordClick(s)), meta);
      && r.state == Stopped && r.blob == Some(TotalSize(s.chunks)) && r.hasUrl
      && r.duration == (if meta.Loaded? then meta.ms else 0)
      && r.ui.timer == FormatTime(r.duration) && !r.ui.sendDisabled
  {
  }

  /** While playing, the timer never shows more whole seconds than the take lasts. */
  lemma PlaybackTimeWithinDuration(s: Snapshot, elapsed: nat)
    requires s.state == Playing
    ensures IsClockText(Timer(s, elapsed).ui.timer)
    ensures SecondsShown(Timer(s, elapsed).ui.timer) <= s.duration / 1000
  {
    var shown := Clamp(elapsed, s.duration);
    FormatTimeRoundTrip(shown);
    FormatTimeRoundTrip(s.duration);
    FormatTimeMonotone(shown, s.duration);
  }

  /** The means pushed for a run of visualiser frames. */
  function Means(frames: seq<seq<byte>>): (ms: seq<real>)
    ensures |ms| == |frames|
  {
    if frames == [] then [] else [Mean(frames[0])] + Means(frames[1..])
  }

  function WaveFrames(frames: seq<seq<byte>>): (es: seq<Event>)
    ensures |es| == |frames|
  {
    if frames == [] then [] else [WaveFrame(frames[0])] + WaveFrames(frames[1..])
  }

  /** Dropping a prefix does not change a suffix that lies entirely in what remains. */
  lemma SuffixOfConcat<T>(p: seq<T>, b: seq<T>, k: nat)
    requires k <= |b|
    ensures (p + b)[|p| + k..] == b[k..]
  {
  }

  lemma LastNTwice<T>(a: seq<T>, ys: seq<T>, n: nat)
    ensures LastN(LastN(a, n) + ys, n) == LastN(a + ys, n)
  {
    if |a| > n {
      var pre, tail := a[..|a| - n], a[|a| - n..];
      assert a + ys == pre + (tail + ys);
      SuffixOfConcat(pre, tail + ys, |ys|);
    }
  }

  /** One visualiser frame then more samples, seen through the window. */
  lemma WindowStep(window: seq<real>, m: real, rest: seq<real>)
    requires |window| <= MAX_DATA_POINTS
    ensures LastN(Push(window, m) + rest, MAX_DATA_POINTS) == LastN(window + ([m] + rest), MAX_DATA_POINTS)
  {
    PushLastN(window, m);
    LastNTwice(window + [m], rest, MAX_DATA_POINTS);
    assert window + ([m] + rest) == (window + [m]) + rest;
  }

  lemma RunWaveFrames(s: Snapshot, frames: seq<seq<byte>>)
    requires frames != []
    ensures Run(s, WaveFrames(frames)) == Run(Draw(s, frames[0]), WaveFrames(frames[1..]))
  {
    var es := WaveFrames(frames);
    assert es[0] == WaveFrame(frames[0]) && es[1..] == WaveFrames(frames[1..]);
  }

  /**
   * Once the analyser exists, a run of visualiser frames leaves in the
   * window exactly the latest 50 values of the old window followed by the
   * frames' means, and changes nothing else.
   */
  lemma {:induction false} WaveFramesKeepLatest(s: Snapshot, frames: seq<seq<byte>>)
    requires s.analyser && |s.dataPoints| <= MAX_DATA_POINTS
    ensures Run(s, WaveFrames(frames)) == s.(dataPoints := LastN(s.dataPoints + Means(frames), MAX_DATA_POINTS))
    decreases |frames|
  {
    if frames == [] {
      assert s.dataPoints + Means(frames) == s.dataPoints;
    } else {
      var m := Mean(frames[0]);
      var next := s.(dataPoints := Push(s.dataPoints, m));
      RunWaveFrames(s, frames);
      WaveFramesKeepLatest(next, frames[1..]);
      WindowStep(s.dataPoints, m, Means(frames[1..]));
      assert Means(frames) == [m] + Means(frames[1..]);
    }
  }

  /**
   * The upload of a page addressed by `idParam` and `pathname`: the image
   * name is the prompt's file name and the audio is named after the form.
   */
  lemma UploadNames(s: Snapshot, idParam: Option<string>, pathname: string, timestamp: nat)
    requires var id := FormIdText(FormId(idParam, pathname)); '/' !in id && '?' !in id
    requires s.state == Stopped && s.blob.Some? && s.blob.value >= MIN_TAKE_BYTES
    ensures var id := FormIdText(FormId(idParam, pathname));
      SendDecision(s, id, ImageSrc(id, timestamp))
        == Upload(Payload(id, id + ".png", id + ".webm", s.blob.value))
  {
    var id := FormIdText(FormId(idParam, pathname));
    ImageNameOfPrompt(id, timestamp);
  }

  /** Record, three chunks totalling 4000 bytes, stop: the take is ready and can be sent. */
  lemma ScenarioGoodTake(frame: seq<byte>, meta: Metadata)
    ensures var recording := OnRecorderStart(OnMicrophone(RecordClick(Initial()), Granted), frame);
      var captured := OnDataAvailable(OnDataAvailable(OnDataAvailable(recording, 1000), 1500), 1500);
      var r := OnMetadata(OnRecorderStop(RecordClick(captured)), meta);
      r.state == Stopped && r.blob == Some(4000) && !r.ui.sendDisabled
  {
    var s0 := RecordClick(Initial());
    var s1 := OnMicrophone(s0, Granted);
    var s2 := OnRecorderStart(s1, frame);
    var s3 := OnDataAvailable(s2, 1000);
    var s4 := OnDataAvailable(s3, 1500);
    var s5 := OnDataAvailable(s4, 1500);
    assert s5.chunks == [1000, 1500, 1500];
    assert TotalSize(s5.chunks) == 4000 by {
      var c: seq<nat> := [1000, 1500, 1500];
      assert c[..2] == [1000, 1500] && c[..2][..1] == [1000] && c[..2][..1][..0] == [];
      assert TotalSize([1000]) == 1000;
      assert TotalSize(c[..2]) == 2500;
    }
    var s6 := RecordClick(s5);
    assert s6.recorder == Inactive && s6.state == Recording;
  }

  /** Record, one chunk of 200 bytes, stop: back to `IDLE` with an alert and no take. */
  lemma ScenarioShortTake(frame: seq<byte>)
    ensures var recording := OnRecorderStart(OnMicrophone(RecordClick(Initial()), Granted), frame);
      var r := OnRecorderStop(RecordClick(OnDataAvailable(recording, 200)));
      r.state == Idle && r.ui.alert == Some(ShortTake) && r.blob.None? && !r.hasUrl
  {
    var s0 := RecordClick(Initial());
    var s1 := OnMicrophone(s0, Granted);
    var s2 := OnRecorderStart(s1, frame);
    var s3 := OnDataAvailable(s2, 200);
    assert s3.chunks == [200];
    assert TotalSize(s3.chunks) == 200 by { assert [200][..0] == []; }
  }

  /**
   * Pressing record again before `onstart` resets the widget, but the
   * recorder's `onstart` still arrives: it builds the analyser on the
   * recorder's (stopped) stream, and the next frame is drawn as well.
   */
  lemma ScenarioStartAfterEarlyReset(f: seq<byte>, g: seq<byte>)
    ensures var granted := OnMicrophone(RecordClick(Initial()), Granted);
      var r := Draw(OnRecorderStart(RecordClick(granted), f), g);
      r.state == Recording && r.analyser && r.dataPoints == [Mean(f), Mean(g)] && !r.hasStream
  {
    var granted := OnMicrophone(RecordClick(Initial()), Granted);
    var pressed := RecordClick(granted);
    assert pressed.recorder == Inactive && pressed.state == Idle;
    var started := OnRecorderStart(pressed, f);
    assert started.analyser && started.dataPoints == [Mean(f)];
  }

  /** A 5000 ms take played for 5000 ms stops by itself and shows "00:05". */
  lemma ScenarioPlaybackAutoStop(s: Snapshot, frame: seq<byte>)
    requires s.state == Stopped && s.hasUrl && s.duration == 5000
    ensures var r := Timer(OnCanPlayThrough(RecordClick(s), frame), 5000);
      r.state == Stopped && r.ui.timer == "00:05"
  {
    FormatTimeFiveSeconds();
  }
}
