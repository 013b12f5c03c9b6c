# Voice recorder widget, modelled in Dafny

The widget runs on a form-verification page. It shows a prompt image,
records one voice take from the microphone, and lets the user play the take
back, discard it, or upload it. The upload carries the form identifier, the
prompt image's file name and the audio. Everything lives in `js/main.js`:
- a four-state machine (`IDLE`, `RECORDING`, `STOPPED`, `PLAYING`), driven
  by three buttons and by browser callbacks (microphone, `MediaRecorder`,
  metadata loading, audio element, upload);
- a visualiser that keeps the last 50 frame averages;
- a `mm:ss` timer;
- the derivation of the form identifier, the prompt image address and the
  upload's file names from the page address.

The project has these modules:

- `TimeFormat` (`time_format.dfy`): `formatTime`, with a decimal reader
  (`ParseDecimal`) as its partner. The text it produces is proved to carry
  exactly the whole minutes and seconds of its input.
- `Visualiser` (`visualiser.dfy`): the magnitude sum of `drawWaveform` as a
  loop method, the frame mean, and the push-then-shift window. The window is
  proved to equal a reference "last 50 samples" function.
- `PageParams` (`page_params.dfy`):
  - `String.prototype.split` on one character, and its inverse `Join`;
  - the form identifier fallback;
  - the prompt image address and the image name cut back out of it;
  - the audio file name.
- `RecorderSpec` (`recorder_spec.dfy`): the widget's variables as a
  `Snapshot` value, with one function per handler, click and frame tick.
  Also an `Event` type, a `Step`/`Run` interpreter over event sequences, and
  the invariant `Inv`.
- `RecorderProps` (`recorder_props.dfy`): lemmas that relate several
  handlers or hold over every run of events.
- `RecorderMachine` (`recorder.dfy`): the class `Recorder`. Its fields are
  the module variables of `js/main.js`. It has a method for each handler,
  click and frame tick, and for the state-changing helpers `updateUI`,
  `showAlert`, `resetRecording`, `drawWaveform`, `startVisualization`,
  `updateTimer` and `stopPlayback`. Each method's new state is proved equal
  to the `RecorderSpec` function of its old state. Every event and frame
  method keeps `Valid()`, the invariant `Inv` of the fields. The exceptions:
  - `UpdateUI` and `ShowAlert` touch only the page and say nothing about
    `Valid()`.
  - `ResetRecording` establishes `Valid()` from any state.
  - `SendClick` keeps `Valid()` whenever the old state was valid.

  How the rest of `js/main.js` maps onto the model:
  - `formatTime` and the string derivations are pure, so they stay functions.
  - `stopVisualization` changes no state the model keeps: its `disconnect`
    calls and frame cancelling are left out.
  - `actuallyStartPlayback` is folded into `StartPlayback`.
  - The guard of `startRecording` is the predicate `CanStartRecording`.

## How the model is set up

Each browser callback is its own event, and any event may arrive in any
state. No handler in `js/main.js` checks which take or which audio element a
callback belongs to, so the model does not either.

Some things become inputs to the model:
- The outcome of `getUserMedia`, of the metadata load and of `fetch`.
- The time elapsed since a recording or playback started, in whole
  milliseconds.
- The analyser's byte frame for each visualiser tick.
- `Date.now()` for the image address.

`mediaRecorder.stream` is a read-only attribute of `MediaRecorder`. The
page is not in strict mode, so its assignments `mediaRecorder.stream = …`
(`js/main.js:238`, `262`, `397`) have no effect. Once a recorder exists,
the `mediaRecorder.stream` tests at `js/main.js:133`, `260` and `395`
therefore always pass. The model follows this:
- `startVisualization` builds the recording analyser whenever a recorder
  exists (`RecorderSpec.HasLiveSource`).
- The `hasStream` field records whether the tracks of
  `mediaRecorder.stream` are still live, that is, not yet stopped by
  `track.stop()`. Streams that never reach a live `mediaRecorder` are not
  tracked (see "Left out").

The audio data itself is reduced to chunk sizes and the blob size.

What is proved, in summary:

- `Inv` holds after every sequence of events. `Inv` says:
  - the visualiser window never exceeds 50 samples;
  - a kept blob is always over 1000 bytes;
  - an object URL exists only for a blob;
  - an audio element exists only for a URL;
  - live tracks of `mediaRecorder.stream` exist only with a recorder.
- As a consequence, the send handler's "too short" rejection
  (`audioBlob.size < 1000`, `js/main.js:459-462`) can never fire.
  `onstop` (`js/main.js:275`) already refuses every blob of 1000 bytes or
  less.
- When metadata fails to load, `audioDuration` is 0 (`js/main.js:288`). The
  first `updateTimer` of the following playback then stops it at once,
  because 0 elapsed ≥ 0 duration (`RecorderSpec.OnCanPlayThrough`).
- `oncanplaythrough` arriving after a reset still sets `PLAYING`.
  `currentAudioElement.play()` on `null` then throws, so the handler does not
  rearm the timer and does not update the UI (`js/main.js:343-351`).

## Model

| member | source | states |
|---|---|---|
| TimeFormat.Decimal | js/main.js:64-65 | `String(n)` for a whole number: all digits, no leading zero, one digit below 10, at least two from 10 and three from 100 |
| TimeFormat.ParseDecimalOfDecimal | js/main.js:64-65 | reading the decimal text of `n` gives back `n` |
| TimeFormat.ParseLeadingZeros | js/main.js:64-65 | leading zeros (as `padStart` adds) do not change the value read |
| TimeFormat.PadStart2 | js/main.js:64-65 | `padStart(2, '0')`: at least two characters, the input is a suffix, and only zeros are added |
| TimeFormat.PadStart2Parse | js/main.js:64-65 | padding keeps the digits and their value |
| TimeFormat.FormatTime | js/main.js:62-67 | the definition of `formatTime`: whole seconds, split into unbounded minutes and seconds below 60, each `padStart(2, '0')`-ed and joined by `:`; its properties are the lemmas below |
| TimeFormat.FormatTimeDigits | js/main.js:62-67 | the minutes part is exactly `padStart(2, '0')` of `String` of the whole minutes, and the seconds part the same for the seconds below 60 (no padding beyond two digits) |
| TimeFormat.FormatTimeParts | js/main.js:62-67 | the text is `digits:dd`; its minutes read back as the whole minutes and its seconds as the seconds below 60; exactly five characters iff under 100 minutes |
| TimeFormat.FormatTimeRoundTrip | js/main.js:62-67 | the seconds shown equal the whole seconds of the input (only milliseconds are lost) |
| TimeFormat.FormatTimeMonotone | js/main.js:62-67 | a later time never shows fewer seconds |
| TimeFormat.FormatTimeSingleDigits | js/main.js:62-67 | under ten minutes and under ten seconds past the minute, the text is `0m:0s` |
| TimeFormat.FormatTimeZero | js/main.js:62-67 | 0 ms shows `00:00` |
| TimeFormat.FormatTimeOneMinuteOneSecond | js/main.js:62-67 | 61000 ms shows `01:01` |
| TimeFormat.FormatTimeOneHour | js/main.js:62-67 | 3600000 ms shows `60:00` (minutes do not roll over into hours) |
| TimeFormat.FormatTimeFiveSeconds | js/main.js:62-67 | 5000 ms shows `00:05` |
| Visualiser.SumBound | js/main.js:100-104 | the magnitude sum of a frame is at most 255 per sample |
| Visualiser.FrameSum | js/main.js:100-104 | the loop returns the sum of all samples of the frame |
| Visualiser.Mean | js/main.js:104 | the average lies in 0..255 and is 0 for an empty frame |
| Visualiser.Push | js/main.js:106-109 | push then shift past 50: grows by one below capacity, else keeps its length; never exceeds 50 from within capacity; the new sample is last, preceded by the newest of the old samples in order |
| Visualiser.LastN | js/main.js:48 | the reference window holds the last `n` samples, or all when fewer |
| Visualiser.PushLastN | js/main.js:106-109 | one push on the last 50 samples gives the last 50 samples of the extended history |
| Visualiser.FeedKeepsLatest | js/main.js:106-109 | any sequence of pushes into a window within capacity leaves exactly the last 50 samples of the history, in order |
| PageParams.Split | js/main.js:16 | `split(c)`: at least one piece; no piece contains `c`; every character of a piece comes from the input |
| PageParams.JoinSplit | js/main.js:16 | joining the pieces with `c` gives back the input |
| PageParams.SplitJoin | js/main.js:16 | splitting pieces free of `c` joined with `c` gives back the pieces |
| PageParams.SplitNoSeparator | js/main.js:16 | a string without `c` splits into itself alone |
| PageParams.SplitAfterPiece | js/main.js:467 | `split('?')[0]` of `file?query` is `file` |
| PageParams.SplitBeforeLast | js/main.js:16-17 | the last piece of `prefix/last` is `last`, and the piece before it is the last piece of `prefix` |
| PageParams.FormId | js/main.js:13-18 | a non-empty `id` query parameter wins; otherwise the result is a segment of the path and contains no `/` |
| PageParams.FormIdText | js/main.js:17-21 | how the identifier reads inside the image address: the identifier itself, or `undefined` when `segs.pop() \|\| segs.pop()` found nothing |
| PageParams.FormIdLastSegment | js/main.js:15-18 | without the parameter, `…/segment` gives `segment` |
| PageParams.FormIdTrailingSlash | js/main.js:15-18 | without the parameter, `…/segment/` gives `segment` (`segs.pop() \|\| segs.pop()`) |
| PageParams.ImageName | js/main.js:467 | the image name contains neither `/` nor `?` |
| PageParams.DecimalHasNoSeparators | js/main.js:20-21 | the timestamp's digits contain neither `/` nor `?` |
| PageParams.ImageNameOfAddress | js/main.js:467 | the image name of `dir/file?query` is `file` |
| PageParams.ImageSrc | js/main.js:20-21 | the definition of `imgEl.src`: image directory, `/`, `<formId>.png?ts=`, and the timestamp's digits; its partner is `ImageNameOfPrompt` |
| PageParams.AudioFileName | js/main.js:469 | the definition of the upload's file name `<formId>.webm` |
| PageParams.ImageNameOfPrompt | js/main.js:21 | the image name cut from the prompt address is `<formId>.png`, whatever the timestamp |
| RecorderSpec.View | js/main.js:177-213 | reset and send are disabled iff `IDLE` or `RECORDING`; the icon is the stop icon iff `RECORDING` or `PLAYING`; the timer shows `00:00` in `IDLE` and the take's duration in `STOPPED`, and is left alone otherwise |
| RecorderSpec.UpdateUI | js/main.js:177-213 | only the page changes (buttons, icon, timer); the alert stays; send is disabled iff `IDLE` or `RECORDING` |
| RecorderSpec.TotalSize | js/main.js:272 | the blob's size: each chunk is at most the total, and no chunks give 0 |
| RecorderSpec.TotalSizeAppend | js/main.js:243-247 | appending chunks adds their sizes to the blob's size |
| RecorderSpec.HasLiveSource | js/main.js:133-144 | the guard of `startVisualization`: recording with a recorder (whose `stream` always stays set), or playing with an audio element |
| RecorderSpec.StartVisualization | js/main.js:131-158 | only the window and the analyser change; with a live source the analyser exists and the window holds just the first frame's mean; without one the window is empty |
| RecorderSpec.CanStartRecording | js/main.js:215-216 | the guard of `startRecording`: `IDLE` or `STOPPED`; `RecordClick` proves it holds at the only call site |
| RecorderSpec.Inv | js/main.js:43-49 | the invariant over the widget's variables: at most 50 samples; kept blobs over 1000 bytes; URL only with a blob; element only with a URL; live tracks of `mediaRecorder.stream` only with a recorder |
| RecorderSpec.Step | js/main.js:243-494 | the dispatch of each event (callback, click, frame) to its handler |
| RecorderSpec.Run | js/main.js:243-494 | the events applied in order |
| RecorderSpec.Initial | js/main.js:9-10 | the page starts `IDLE` with no take, timer `00:00`, reset and send disabled |
| RecorderSpec.WithAlert | js/main.js:51-55 | `showAlert` on the widget: the given notice is shown and nothing else changes |
| RecorderSpec.Reset | js/main.js:387-420 | `IDLE` with no chunks, blob, URL, duration, element, samples or stream; an active recorder is stopped; timer `00:00`, buttons disabled |
| RecorderSpec.DrawRearms | js/main.js:97-128 | `drawWaveform` schedules its next frame iff the analyser exists and the state is `RECORDING` or `PLAYING` |
| RecorderSpec.Draw | js/main.js:96-109 | without an analyser nothing changes; otherwise the frame's mean becomes the newest sample, the window stays within 50, and nothing else changes |
| RecorderSpec.StopPlayback | js/main.js:365-385 | no effect unless `PLAYING` or an element exists; then `STOPPED`, or after an error `STOPPED` only if a blob exists and `IDLE` otherwise; the take is untouched |
| RecorderSpec.Clamp | js/main.js:79-81 | the playback time shown is the elapsed time capped at the duration: at most both, and equal to one of them |
| RecorderSpec.TimerRearms | js/main.js:72-86 | `updateTimer` schedules its next frame iff recording, or playing with the elapsed time still below the duration |
| RecorderSpec.Timer | js/main.js:70-88 | recording shows the elapsed time; playing shows the elapsed time clamped to the duration and stops exactly when the elapsed time reaches the duration; other states are unchanged |
| RecorderSpec.OnMicrophone | js/main.js:219-314 | granted access installs an active recorder with its stream and clears chunks and samples; denied access alerts "denied" and resets; any other failure alerts "enable the microphone" and resets |
| RecorderSpec.OnRecorderStart | js/main.js:249-256 | `RECORDING`, timer showing `formatTime(0)` (`00:00`), buttons disabled, take untouched; with a recorder the analyser is built and exactly one sample, the mean of the frame, is drawn; without one nothing is drawn and the analyser is unchanged |
| RecorderSpec.OnDataAvailable | js/main.js:243-247 | a non-empty chunk is appended; an empty one is ignored; nothing else changes |
| RecorderSpec.StopRecording | js/main.js:317-322 | only while `RECORDING` with a recorder: the recorder goes inactive and nothing else changes |
| RecorderSpec.OnRecorderStop | js/main.js:258-297 | the stream is released; no chunks gives the "empty" alert and a reset; 1000 bytes or less stores the blob, raises the "too short" alert and then resets (`IDLE`, no blob); more keeps the blob with its total size and a URL |
| RecorderSpec.OnRecorderError | js/main.js:299-303 | `IDLE` with no blob, URL or live stream, and the capture-error alert |
| RecorderSpec.OnMetadata | js/main.js:279-292 | `STOPPED` with the loaded duration (0 on error), the timer showing it, reset and send enabled, the take untouched |
| RecorderSpec.StartPlayback | js/main.js:324-342 | only in `STOPPED` with a URL is an audio element created; otherwise nothing changes |
| RecorderSpec.OnCanPlayThrough | js/main.js:343-351 | with no element only the state becomes `PLAYING`; otherwise playback is `PLAYING` iff the duration is positive (a zero duration stops it at once), the timer shows `formatTime(0)` (`00:00`), the analyser is built and exactly one sample, the mean of the frame, is drawn |
| RecorderSpec.OnEnded | js/main.js:353-355 | playback ends `STOPPED` showing the full duration, with send enabled |
| RecorderSpec.OnPlaybackError | js/main.js:357-361 | the playback-error alert; `STOPPED` if a blob exists, else `IDLE`; the take is untouched |
| RecorderSpec.RecordClick | js/main.js:423-447 | plays a stopped take with a URL; from `IDLE` (or stopped without a URL) resets, after which the `startRecording` guard holds (`CanStartRecording`), so the microphone request always follows; stops a recording; stops a playback into `STOPPED` |
| RecorderSpec.ResetClick | js/main.js:449-452 | everything is discarded: `IDLE` with no blob, URL, chunks, samples, audio element, live stream or active recorder, duration 0, then the "deleted" alert |
| RecorderSpec.SendDecision | js/main.js:455-469 | the upload happens iff `STOPPED` with a blob of at least 1000 bytes, with fields id, image name, `<id>.webm` and the blob; each rejection has its own notice |
| RecorderSpec.SendClick | js/main.js:454-464 | a rejection only shows its notice; an upload only disables send |
| RecorderSpec.OnSendResult | js/main.js:481-493 | success alerts "sent" and resets; an HTTP failure shows its status, a network failure the network alert; after either failure send is re-enabled and nothing but the page changes |
| RecorderProps.InitialInv | js/main.js:9-10 | the page starts within the invariant |
| RecorderProps.MicrophoneKeepsInv | js/main.js:219-314 | the microphone outcome keeps the invariant |
| RecorderProps.RecorderStartKeepsInv | js/main.js:249-256 | `onstart` keeps the invariant |
| RecorderProps.RecorderStopKeepsInv | js/main.js:258-297 | `onstop` keeps the invariant |
| RecorderProps.CanPlayThroughKeepsInv | js/main.js:343-351 | `oncanplaythrough` keeps the invariant |
| RecorderProps.TimerKeepsInv | js/main.js:70-88 | a timer tick keeps the invariant |
| RecorderProps.RecordClickKeepsInv | js/main.js:423-447 | the record button keeps the invariant |
| RecorderProps.ResetClickKeepsInv | js/main.js:449-452 | the reset button keeps the invariant |
| RecorderProps.SendClickKeepsInv | js/main.js:454-464 | the send button keeps the invariant |
| RecorderProps.SendResultKeepsInv | js/main.js:481-493 | the upload result keeps the invariant |
| RecorderProps.StepPreservesInv | js/main.js:243-494 | every handler, click and frame keeps the invariant |
| RecorderProps.RunPreservesInv | js/main.js:243-494 | the invariant holds after any sequence of events |
| RecorderProps.ResetIdempotent | js/main.js:387-420 | resetting twice is resetting once |
| RecorderProps.SendNeverTooShort | js/main.js:459-462 | from page load, no sequence of events reaches the "too short to send" rejection |
| RecorderProps.StopThenMetadata | js/main.js:258-292 | stopping a recording of more than 1000 bytes and loading its metadata gives `STOPPED` with the blob, a URL, the duration shown and send enabled |
| RecorderProps.PlaybackTimeWithinDuration | js/main.js:76-86 | while playing, the timer never shows more whole seconds than the take lasts |
| RecorderProps.LastNTwice | js/main.js:106-109 | keeping the last 50 before appending more changes nothing about the last 50 after |
| RecorderProps.RunWaveFrames | js/main.js:126-128 | a run of frames is its first frame followed by the rest |
| RecorderProps.WaveFramesKeepLatest | js/main.js:96-128 | once the analyser exists, any run of frames leaves exactly the last 50 of the old samples followed by the frames' means, and changes nothing else |
| RecorderProps.UploadNames | js/main.js:13-21 | for a form id that contains neither `/` nor `?`, the upload sends the id, `<id>.png` as image name and `<id>.webm` as file name (an id such as `a/b`, from `?id=a%2Fb`, would send image name `b.png`) |
| RecorderProps.ScenarioGoodTake | js/main.js:423-447 | record, chunks of 1000+1500+1500 bytes, stop, metadata: `STOPPED`, a 4000-byte blob, send enabled |
| RecorderProps.ScenarioShortTake | js/main.js:293-296 | record, one 200-byte chunk, stop: `IDLE`, the "too short" alert, no take |
| RecorderProps.ScenarioStartAfterEarlyReset | js/main.js:131-143 | record, microphone granted, record again before `onstart` (a reset), then `onstart` and one frame: `RECORDING` with the analyser built on the stopped stream and both frames' means in the window |
| RecorderProps.ScenarioPlaybackAutoStop | js/main.js:76-86 | a 5000 ms take played for 5000 ms stops by itself showing `00:05` |
| RecorderMachine.Recorder.constructor | js/main.js:9-10 | the page-load state and the invariant; every method below except `UpdateUI`, `ShowAlert`, `ResetRecording` and `SendClick` requires and ensures `Valid()` |
| RecorderMachine.Recorder.UpdateUI | js/main.js:177-213 | the new state is `RecorderSpec.UpdateUI` of the old |
| RecorderMachine.Recorder.ShowAlert | js/main.js:52-60 | only the alert changes |
| RecorderMachine.Recorder.ResetRecording | js/main.js:387-420 | the new state is `Reset` of the old, and it is valid whatever the old state |
| RecorderMachine.Recorder.DrawWaveform | js/main.js:96-129 | the new state is `Draw` of the old; rearms iff an analyser exists while recording or playing |
| RecorderMachine.Recorder.StartVisualization | js/main.js:131-158 | the new state is `RecorderSpec.StartVisualization` of the old: the window is cleared, then the analyser is built and one frame drawn when a live source exists |
| RecorderMachine.Recorder.UpdateTimer | js/main.js:70-88 | the new state is `Timer` of the old; rearms iff recording, or playing before the duration is reached |
| RecorderMachine.Recorder.OnMicrophone | js/main.js:219-314 | the new state is `RecorderSpec.OnMicrophone` of the old |
| RecorderMachine.Recorder.OnRecorderStart | js/main.js:249-256 | the new state is `RecorderSpec.OnRecorderStart` of the old |
| RecorderMachine.Recorder.OnDataAvailable | js/main.js:243-247 | the new state is `RecorderSpec.OnDataAvailable` of the old |
| RecorderMachine.Recorder.StopRecording | js/main.js:317-322 | the new state is `RecorderSpec.StopRecording` of the old |
| RecorderMachine.Recorder.OnRecorderStop | js/main.js:258-297 | the new state is `RecorderSpec.OnRecorderStop` of the old |
| RecorderMachine.Recorder.OnRecorderError | js/main.js:299-303 | the new state is `RecorderSpec.OnRecorderError` of the old |
| RecorderMachine.Recorder.OnMetadata | js/main.js:279-292 | the new state is `RecorderSpec.OnMetadata` of the old |
| RecorderMachine.Recorder.StartPlayback | js/main.js:324-342 | the new state is `RecorderSpec.StartPlayback` of the old |
| RecorderMachine.Recorder.OnCanPlayThrough | js/main.js:343-351 | the new state is `RecorderSpec.OnCanPlayThrough` of the old |
| RecorderMachine.Recorder.OnEnded | js/main.js:353-355 | the new state is `RecorderSpec.OnEnded` of the old |
| RecorderMachine.Recorder.OnPlaybackError | js/main.js:357-361 | the new state is `RecorderSpec.OnPlaybackError` of the old |
| RecorderMachine.Recorder.StopPlayback | js/main.js:365-385 | the new state is `RecorderSpec.StopPlayback` of the old |
| RecorderMachine.Recorder.RecordClick | js/main.js:423-447 | the new state is `RecorderSpec.RecordClick` of the old |
| RecorderMachine.Recorder.ResetClick | js/main.js:449-452 | the new state is `RecorderSpec.ResetClick` of the old |
| RecorderMachine.Recorder.SendClick | js/main.js:454-469 | the new state is `RecorderSpec.SendClick` of the old, and the returned decision is `SendDecision` (the payload posted); from a valid recorder it stays valid and never returns the "too short" rejection |
| RecorderMachine.Recorder.OnSendResult | js/main.js:481-493 | the new state is `RecorderSpec.OnSendResult` of the old |

## Left out

- The canvas drawing is left out: bars, `resizeCanvas` and `drawSilentWaveform` only paint pixels and change no state the widget reads.
- Audio-graph objects are modelled only as "an analyser exists". This covers `AudioContext`, source nodes, `disconnect` and the `fftSize`/`frequencyBinCount` set-up. Every call into them is taken to succeed. A second `createMediaElementSource` on an element that is already connected throws in browsers; the model does not capture that.
- `audioCtx.resume()` is treated as immediate, in `recordBtn.onclick` and in `startPlayback`. The deferred `actuallyStartPlayback` after a suspended context is not modelled as a separate event.
- Frame scheduling is not modelled: each `requestAnimationFrame` tick is an event, and `cancelAnimationFrame` has no effect on the state. `DrawWaveform` and `UpdateTimer` return whether they would schedule again.
- `Date.now()` is an input: each timer tick takes the elapsed milliseconds. The first `updateTimer` in `onstart` and in `oncanplaythrough` is taken at 0 ms.
- RecorderSpec.OnMetadata: the duration is a whole number of milliseconds. A fractional or `Infinity` `tempAudio.duration` (which some browsers give for WebM) is not modelled, because JavaScript floating point is out of scope.
- Visualiser.Mean: the frame average is an exact rational, not a JavaScript double.
- The audio content of chunks and blobs is reduced to sizes. `new Blob` is the sum of the chunk sizes, and the MIME types and recorder options are constants with no effect on state.
- `fetch` and the webhook address are not modelled. The upload's outcome is an input (`SendOutcome`), and `SendDecision` is the payload that would be posted.
- RecorderSpec.OnSendResult: the HTTP error alert keeps the status but not the response body text, because `response.text()` is I/O.
- `showAlert` keeps the last message only. Its display duration and hide timeout are timers with no effect on the widget's state.
- `console` logging is left out.
- `imgEl.src` is modelled as the string the template builds. The browser's URL serialisation, such as percent-encoding a form id that contains spaces, is not modelled.
- The track-level `getTracks().forEach(track => track.stop())` is folded into "the stream is released". Streams that `mediaRecorder.stream` does not hold are not tracked:
  - When `new MediaRecorder` or `audioCtx.resume()` throws after `getUserMedia` has granted a stream (`js/main.js:218-237`), the source drops the local `stream` without stopping it, and the microphone stays live. The model's `MicOutcome.Unavailable` resets and keeps no record of that stream.
  - When two grants overlap, the second `mediaRecorder = new MediaRecorder(...)` replaces the first recorder. The first recorder's stream is never stopped, and the model does not track it.
- Callbacks are not tied to the recorder or element that fired them, as in the source. The model therefore cannot state "at most one live session": the source has no session identity to state it about.
- `MediaRecorder`'s `paused` state is not modelled: nothing in the source pauses a recorder.
