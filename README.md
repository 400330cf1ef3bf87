# app-media-recorder, modelled in Dafny

This project models the recording controller of the `app-media-recorder`
element (PolymerElements/app-media). It is the one part of that repository
with logic of its own. The element takes a MediaStream and derives a mime type
for the output. From the stream and that type it builds a MediaRecorder. It
then drives the recorder through `start`, `stop`, `pause` and `resume`, and
keeps the `recording` flag in step with the recorder's `state`. During each
session it collects the recorder's `dataavailable` chunks and enforces an
optional maximum `duration`. On the recorder's `stop` event it publishes the
session's chunks as one Blob.

Files:

- `wrappers.dfy`: `Option`. It stands for `undefined`/`null`.
- `mime_types.dfy`: `_computeMimeType` and `_computeRecorder`. Also a
  function that splits a mime type at its first `;` into essence and codecs
  value, and one that joins them again. The derived type is proved to split
  back into its parts.
- `blobs.dfy`: bytes, chunks, and the Blob made from joining chunks in order.
- `recording_protocol.dfy`: the W3C `RecordingState` enumeration and the
  reconcile rule of `_recordingChanged`. It also holds what one
  `dataavailable` event does to a session's captured state (`Deliver`), and
  the same over a whole sequence of events.
- `media_recorder_element.dfy`: the stateful part, in three classes.
  - `MediaRecorder` is the external recorder. It keeps its state and its
    registered listeners, and it logs the commands it receives.
  - `Session` holds the variables captured by the closures that one `start()`
    creates.
  - `AppMediaRecorder` is the element itself. Its methods are proved against
    the functions of `recording_protocol.dfy`.

Modelling choices:

- The clock (`performance.now()`) is a `now` parameter.
- The recorder's events are delivered by the environment. It calls
  `OnDataAvailable` or `OnStop` with the session whose listeners the event
  reaches.
- A JavaScript exception is the `Thrown` outcome of a method. For example, the
  `TypeError` of reading `this.recorder.state` when there is no recorder.
- The recorder keeps these state rules of the W3C MediaStream Recording API:
  - `start` throws `InvalidStateError` unless the recorder is inactive;
  - an inactive recorder may still refuse to start (`NotSupportedError` for
    an inactive stream or unfit tracks, `SecurityError` under isolation);
    whether it does is an input from the environment (`startFailure`);
  - `pause` and `resume` throw `InvalidStateError` on an inactive recorder;
  - `stop` makes the recorder inactive.
- Polymer's computed properties and observer become explicit calls:
  `Configure` and `RecordingChanged`.

The model follows the code in these places, where its behaviour may be
unexpected:

- The duration cutoff fires only when the elapsed time strictly exceeds the
  duration (`duration < elapsed`), not when it equals it.
- `_computeRecorder` checks only the mime type, not the stream. The two agree
  when chained, because a mime type exists only when a stream does.
- `start()` and `stop()` without a recorder do not leave the state untouched.
  They publish an elapsed time of 0 and then throw.
- `elapsed` is not always 0 while idle. After `stop()` has published 0, the
  recorder's final `dataavailable` event still reaches the session's handler,
  because the listeners stay registered until the recorder's `stop` event.
  That handler publishes the time since start again. After a duration cutoff
  this value is not clamped either, because `finished` is already set.

## Model

| member | source | states |
|---|---|---|
| `RecordingProtocol.StateName` | app-media-recorder.js:11-15 | the three recorder states have the distinct names `inactive`, `recording` and `paused`, and each name reads back as its state |
| `MimeTypes.Essence` | app-media-recorder.js:218-226 | the candidate is a video type exactly when mpeg is preferred or the stream has a video track; it is webm exactly when mpeg is not preferred; it is never empty and has no `;` |
| `MimeTypes.Truthy` | app-media-recorder.js:228 | the codecs value counts as given when it is set and not the empty string, as JavaScript's truthiness of a string decides |
| `MimeTypes.ComputeMimeType` | app-media-recorder.js:213-239 | there is no mime type exactly when there is no stream; a derived type is never empty, so the `|| ''` fallback never applies; it carries a parameter exactly when `codecs` is truthy (set and non-empty) |
| `MimeTypes.ParseMimeType` | app-media-recorder.js:228-235 | splitting a mime type at its first `;`, which must start `;codecs=`; whatever it accepts joins back to the same string, with an essence free of `;` |
| `MimeTypes.ParseFormat` | app-media-recorder.js:228-235 | printing then parsing gives back the parts, for every essence without `;` and any codecs value, including one that itself contains `;` |
| `MimeTypes.MimeTypeRoundTrip` | app-media-recorder.js:213-238 | a derived mime type reads back as the precedence-chosen essence, with the codecs value exactly when `codecs` is truthy, and with none otherwise |
| `MimeTypes.ComputeRecorder` | app-media-recorder.js:203-211 | a recorder is built exactly when a mime type is present, bound to the given stream and that mime type |
| `MimeTypes.RecorderPresentIffStream` | app-media-recorder.js:203-226 | chained as the element chains them, a recorder exists exactly when a stream does |
| `Blobs.Concat` | app-media-recorder.js:158-160 | the joined content's length is the summed size of the chunks |
| `Blobs.NewBlob` | app-media-recorder.js:158-160 | the Blob's content is the parts joined in order, so its size is their summed size; its type is the mime type, or empty when there is none |
| `Blobs.ConcatAppend` | app-media-recorder.js:158-160 | joining distributes over appending chunk lists |
| `Blobs.ConcatSlice` | app-media-recorder.js:158-160 | each chunk appears intact in the content, right after the bytes of all earlier chunks, so order is preserved |
| `Blobs.ConcatSmall` | app-media-recorder.js:158-160 | zero chunks give empty content; chunks A, B, C give A ++ B ++ C |
| `RecordingProtocol.Reconcile` | app-media-recorder.js:246-252 | with a recorder present: no action exactly when flag and state agree; start only when the flag is set and the recorder is inactive; stop only when the flag is clear and the recorder is not inactive |
| `RecordingProtocol.NewSession` | app-media-recorder.js:133-135 | a session's captured state starts as the start time, an empty chunk list and `finished` false |
| `RecordingProtocol.IsChunk` | app-media-recorder.js:140 | an event carries a chunk when its data is present and of non-zero size |
| `RecordingProtocol.Kept` | app-media-recorder.js:140-143 | an event contributes its data as one chunk when it carries one, and nothing otherwise |
| `RecordingProtocol.Fires` | app-media-recorder.js:145 | the cutoff fires when the duration is positive, strictly below the time since start, and the session has not finished |
| `RecordingProtocol.Deliver` | app-media-recorder.js:137-149 | handling one event keeps the start time, keeps the old chunks as a prefix and appends at most the event's chunk, and changes `finished` exactly when the cutoff fires, only from false to true |
| `RecordingProtocol.StopCalls` | app-media-recorder.js:179-182 | `stop()` sends the recorder one stop command when it is not inactive, and none when it is |
| `RecordingProtocol.PublishedElapsed` | app-media-recorder.js:145-151 | while a session is unfinished and the duration is positive, the published elapsed time never exceeds the duration; in a finished session or without a duration it is the raw time since start |
| `RecordingProtocol.Step` | app-media-recorder.js:137-149 | one event, with the clock reading and the `duration` of the moment it is handled, applied to the session's captured state |
| `RecordingProtocol.DeliverAllKeepsChunks` | app-media-recorder.js:140-143 | the chunk list is append-only: after any events it is the old list followed by the non-empty event data in arrival order |
| `RecordingProtocol.FinishedStays` | app-media-recorder.js:145-148 | once the cutoff has set `finished`, no later event clears it |
| `RecordingProtocol.CutoffAtMostOnce` | app-media-recorder.js:145-149 | over any events, each carrying the `duration` read when it is handled, the cutoff fires exactly once if the session ends finished having started unfinished, and otherwise never; so at most once per session even when `duration` changes mid-session |
| `RecordingProtocol.CutoffFiresIff` | app-media-recorder.js:145-149 | an unfinished session ends finished exactly when some event is handled while its `duration` is positive and strictly below the time since the start |
| `RecordingProtocol.SessionArtifact` | app-media-recorder.js:133-160 | the Blob a fresh session finalizes holds exactly the non-empty event data joined in arrival order, and is empty when there was none |
| `MediaRecorderElement.Session.constructor` | app-media-recorder.js:133-135 | a session starts with an empty chunk list, unfinished, at the current time |
| `MediaRecorderElement.MediaRecorder.constructor` | app-media-recorder.js:208-210 | a new recorder is bound to the given options, is inactive, has received no commands and has no listeners |
| `MediaRecorderElement.MediaRecorder.Start` | app-media-recorder.js:168 | a recorder that is not inactive throws `InvalidStateError` and keeps its state; an inactive one starts recording, unless the platform refuses it, in which case it stays inactive and the refusal (`NotSupportedError`, `SecurityError`) is thrown; every call is logged with its timeslice |
| `MediaRecorderElement.MediaRecorder.Stop` | app-media-recorder.js:181 | the recorder becomes inactive and the call is logged |
| `MediaRecorderElement.MediaRecorder.Pause` | app-media-recorder.js:190 | an inactive recorder throws `InvalidStateError`, any other is paused |
| `MediaRecorderElement.MediaRecorder.Resume` | app-media-recorder.js:199 | an inactive recorder throws `InvalidStateError`, any other records |
| `MediaRecorderElement.MediaRecorder.AddListeners` | app-media-recorder.js:165-166 | the session's handlers are registered |
| `MediaRecorderElement.MediaRecorder.RemoveListeners` | app-media-recorder.js:155-156 | the session's handlers are unregistered |
| `MediaRecorderElement.AppMediaRecorder.constructor` | app-media-recorder.js:20-122 | property defaults: timeslice 10, duration 0, mpeg false, codecs null, elapsed 0, not recording, no data, no recorder |
| `MediaRecorderElement.AppMediaRecorder.Configure` | app-media-recorder.js:35-68 | the mime type is recomputed from stream, mpeg and codecs; a new, inactive recorder replaces the old one exactly when the stream or the mime type changed; the computed properties stay consistent (`Valid`) |
| `MediaRecorderElement.AppMediaRecorder.Stop` | app-media-recorder.js:177-184 | elapsed becomes 0; a non-inactive recorder is stopped once and the flag cleared; an inactive recorder and the flag are left unchanged, so repeating the call changes nothing more; without a recorder it throws |
| `MediaRecorderElement.AppMediaRecorder.Start` | app-media-recorder.js:132-170 | the recorder receives a stop first if it was not inactive, then `start(timeslice)`; a fresh session with an empty chunk list, not finished, is registered; the recorder ends up recording and the flag is set; if the recorder refuses to start, its error propagates with the session's listeners registered, the earlier recording stopped and the flag as `stop()` left it; without a recorder it throws after publishing 0 |
| `MediaRecorderElement.AppMediaRecorder.Pause` | app-media-recorder.js:189-191 | the pause goes to the recorder unconditionally, and its `InvalidStateError` on an inactive recorder propagates |
| `MediaRecorderElement.AppMediaRecorder.Resume` | app-media-recorder.js:196-201 | the recorder is resumed exactly when it is paused, and is otherwise left untouched |
| `MediaRecorderElement.AppMediaRecorder.RecordingChanged` | app-media-recorder.js:241-253 | with no recorder, nothing happens; otherwise the action `Reconcile` chooses is carried out: nothing changes when flag and state agree; a start leaves the recorder recording with the flag set (or, if the recorder refuses, inactive with the error thrown); a stop leaves it inactive with the flag clear; unless the recorder refuses, flag and state agree afterwards |
| `MediaRecorderElement.AppMediaRecorder.OnDataAvailable` | app-media-recorder.js:137-152 | the session becomes `Deliver` of its old state; each non-empty chunk fires exactly one chunk event carrying it and is appended; when the cutoff fires, the recorder gets one stop and the published elapsed is clamped to the duration, overriding the 0 written by `stop()`; otherwise the published elapsed is the time since start |
| `MediaRecorderElement.AppMediaRecorder.OnStop` | app-media-recorder.js:154-161 | the session's listeners are removed from the current recorder; `data` becomes the session's chunks joined in order, typed with the current mime type (the empty type when there is none) |
| `MediaRecorderElement.RecordThreeChunks` | app-media-recorder.js:132-184 | start, chunks A, B, an empty chunk, C, stop and the stop event publish the Blob A ++ B ++ C typed `audio/webm` |
| `MediaRecorderElement.LateEventAfterCutoff` | app-media-recorder.js:145-151 | after session 1 hit the cutoff and a new `start()` opened session 2, a late event for session 1 sends no stop: the recorder keeps recording, the flag stays set, and the published elapsed time is session 1's unclamped 800 |
| `MediaRecorderElement.CutoffOnce` | app-media-recorder.js:145-151 | with duration 500, an event 600 after the start publishes 500 and sends one stop; a later event in the same session sends none |

## Left out

- `_mimeTypeChanged` and its `MediaRecorder.isTypeSupported` warning (app-media-recorder.js:255-263). It is a console warning through a platform query.
- The module-level check that `window.MediaRecorder` exists (app-media-recorder.js:3-6).
- Failures of the `MediaRecorder` constructor itself, such as an unsupported type or a missing stream. That constructor is platform code.
- Errors a recorder reports during a session (its `error` event). They are not handled by the element.
- The normalisation that the Blob constructor applies to its `type` (ASCII lower-casing; the empty type for non-printable characters). `OnStop` tags the Blob with the mime type as it is.
- The timing of the recorder's asynchronous events relative to each other. A `stop` event queued by one session can arrive after a new `start()` has registered another session's listeners. The model delivers each event to one session chosen by the environment, and does not model the DOM's dispatch to every registered listener.
- Polymer's property effects. `Configure` stands for recomputing `mimeType` and `recorder`; `RecordingChanged` must be called where Polymer would run the observer; `notify` events for `elapsed`, `data`, `recording` and `recorder` are not logged. Only the `app-media-recorder-chunk` events are logged.
- Clock values and the `duration` and `timeslice` properties are integers. `performance.now()` returns fractional milliseconds, and `duration` is a JavaScript Number that may be fractional or `NaN`.
- `MimeTypes.ParseMimeType` does not check the RFC 2045 syntax of a mime type. It accepts any `;`-free essence, even one without `/`. It takes everything after `;codecs=` as the value, including `;`, spaces and commas, which RFC 2045 allows only inside quotes. The element writes the codecs value unquoted, so a value such as `vp8,opus` gives a mime type outside that grammar.
- The other files of the repository: the waveform draw loop, the Web Audio wiring of `app-media-audio`, and the test helpers and polyfill loader. They hold no logic of this element.
