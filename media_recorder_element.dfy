/**
 * The `app-media-recorder` element: a recording controller that drives a
 * MediaRecorder, collects the chunks of each recording session, enforces an
 * optional maximum duration and publishes the finished recording as a Blob.
 *
 * The MediaRecorder is external; `MediaRecorder` below keeps only its state,
 * its registered listeners and a log of the commands it received. Its
 * `dataavailable` and `stop` events are delivered by the environment, which
 * calls `OnDataAvailable` and `OnStop` of the element with the session whose
 * listeners the event reaches. The clock (`performance.now()`) is the `now`
 * parameter. A JavaScript exception is an `Outcome` of `Thrown`.
 */
module MediaRecorderElement {
  import opened Wrappers
  import opened MimeTypes
  import opened Blobs
  import opened RecordingProtocol

  datatype Exception = TypeError | InvalidStateError | NotSupportedError | SecurityError

  datatype Outcome = Done | Thrown(error: Exception)

  /**
   * The state a call of `start()` captures for its two closures
   * `onDataAvailable` and `onStop`; registering the session on a recorder
   * stands for registering both listeners.
   */
  class Session {
    const start: int
    var data: seq<Chunk>
    var finished: bool

    constructor (now: int)
      ensures View() == NewSession(now)
    {
      start := now;
      data := [];
      finished := false;
    }

    function View(): SessionView
      reads this
    {
      SessionView(start, data, finished)
    }
  }

  /**
   * A MediaRecorder, as the W3C MediaStream Recording API defines its state
   * changes. Whether the platform lets an inactive recorder start is decided
   * by the environment, through `startFailure`.
   */
  class MediaRecorder {
    const options: RecorderOptions
    var state: RecordingState
    var calls: seq<Command>
    var listeners: set<Session>
    /**
     * The error `start()` raises on an inactive recorder, if any:
     * `NotSupportedError` for an inactive stream or tracks the type cannot
     * hold, `SecurityError` under isolation.
     */
    var startFailure: Option<Exception>

    constructor (options: RecorderOptions)
      ensures this.options == options
      ensures state == Inactive && calls == [] && listeners == {} && startFailure == None
    {
      this.options := options;
      state := Inactive;
      calls := [];
      listeners := {};
      startFailure := None;
    }

    /**
     * `start(timeslice)`: a recorder that is not inactive throws
     * `InvalidStateError`; an inactive one starts recording unless the
     * platform refuses, in which case it stays inactive and the error is thrown.
     */
    method Start(timeslice: int) returns (r: Outcome)
      modifies this`state, this`calls
      ensures calls == old(calls) + [StartCmd(timeslice)]
      ensures old(state) == Inactive && startFailure.None? ==> r == Done && state == Recording
      ensures old(state) == Inactive && startFailure.Some? ==> r == Thrown(startFailure.value) && state == Inactive
      ensures old(state) != Inactive ==> r == Thrown(InvalidStateError) && state == old(state)
    {
      calls := calls + [StartCmd(timeslice)];
      if state != Inactive {
        return Thrown(InvalidStateError);
      }
      if startFailure.Some? {
        return Thrown(startFailure.value);
      }
      state := Recording;
      r := Done;
    }

    /**
     * `stop()`: the recorder becomes inactive. Its final `dataavailable` and
     * its `stop` event follow later, from the environment.
     */
    method Stop()
      modifies this`state, this`calls
      ensures calls == old(calls) + [StopCmd]
      ensures state == Inactive
    {
      calls := calls + [StopCmd];
      state := Inactive;
    }

    /** `pause()`: an error on an inactive recorder, otherwise the recorder is paused. */
    method Pause() returns (r: Outcome)
      modifies this`state, this`calls
      ensures calls == old(calls) + [PauseCmd]
      ensures old(state) == Inactive ==> r == Thrown(InvalidStateError) && state == Inactive
      ensures old(state) != Inactive ==> r == Done && state == Paused
    {
      calls := calls + [PauseCmd];
      if state == Inactive {
        return Thrown(InvalidStateError);
      }
      state := Paused;
      r := Done;
    }

    /** `resume()`: an error on an inactive recorder, otherwise the recorder records. */
    method Resume() returns (r: Outcome)
      modifies this`state, this`calls
      ensures calls == old(calls) + [ResumeCmd]
      ensures old(state) == Inactive ==> r == Thrown(InvalidStateError) && state == Inactive
      ensures old(state) != Inactive ==> r == Done && state == Recording
    {
      calls := calls + [ResumeCmd];
      if state == Inactive {
        return Thrown(InvalidStateError);
      }
      state := Recording;
      r := Done;
    }

    /** `addEventListener` for a session's `dataavailable` and `stop` handlers. */
    method AddListeners(s: Session)
      modifies this`listeners
      ensures listeners == old(listeners) + {s}
    {
      listeners := listeners + {s};
    }

    /** `removeEventListener` for a session's `dataavailable` and `stop` handlers. */
    method RemoveListeners(s: Session)
      modifies this`listeners
      ensures listeners == old(listeners) - {s}
    {
      listeners := listeners - {s};
    }
  }

  class AppMediaRecorder {
    // configuration
    var stream: Option<Stream>
    var mpeg: bool
    var codecs: Option<string>
    var timeslice: int
    var duration: int
    // computed properties
    var mimeType: Option<string>
    var recorder: MediaRecorder?
    // published state
    var elapsed: int
    var data: Option<Blob>
    var recording: bool
    /** The payloads of the `app-media-recorder-chunk` events fired so far, in order. */
    var chunkEvents: seq<Chunk>

    /** The computed properties agree with the configuration they are computed from. */
    ghost predicate Valid()
      reads this`stream, this`mpeg, this`codecs, this`mimeType, this`recorder
    {
      && mimeType == ComputeMimeType(stream, mpeg, codecs)
      && (recorder == null <==> ComputeRecorder(stream, mimeType).None?)
      && (recorder != null ==> Some(recorder.options) == ComputeRecorder(stream, mimeType))
    }

    /** The property defaults: no stream, a timeslice of 10, no duration limit, not recording. */
    constructor ()
      ensures Valid()
      ensures stream == None && !mpeg && codecs == None && timeslice == 10 && duration == 0
      ensures mimeType == None && recorder == null
      ensures elapsed == 0 && data == None && !recording && chunkEvents == []
    {
      stream, mpeg, codecs := None, false, None;
      timeslice, duration := 10, 0;
      mimeType, recorder := None, null;
      elapsed, data, recording := 0, None, false;
      chunkEvents := [];
    }

    /**
     * Sets the inputs of the computed properties and recomputes them:
     * `mimeType` always, and a new recorder whenever the stream or the mime
     * type changed. The recorder it replaces is dropped, not stopped.
     */
    method Configure(newStream: Option<Stream>, newMpeg: bool, newCodecs: Option<string>)
      requires Valid()
      modifies this`stream, this`mpeg, this`codecs, this`mimeType, this`recorder
      ensures Valid()
      ensures stream == newStream && mpeg == newMpeg && codecs == newCodecs
      ensures mimeType == ComputeMimeType(newStream, newMpeg, newCodecs)
      ensures stream == old(stream) && mimeType == old(mimeType) ==> recorder == old(recorder)
      ensures (stream != old(stream) || mimeType != old(mimeType)) && recorder != null ==>
                fresh(recorder) && recorder.state == Inactive && recorder.calls == [] && recorder.listeners == {}
                && recorder.startFailure == None
    {
      var oldStream, oldMimeType := stream, mimeType;
      stream, mpeg, codecs := newStream, newMpeg, newCodecs;
      mimeType := ComputeMimeType(stream, mpeg, codecs);
      if stream != oldStream || mimeType != oldMimeType {
        match ComputeRecorder(stream, mimeType)
        case None =>
          recorder := null;
        case Some(options) =>
          recorder := new MediaRecorder(options);
      }
    }

    /**
     * `stop()`: publishes an elapsed time of 0; a recorder that is not
     * inactive is stopped and the flag cleared, an inactive one is left as it
     * is. Without a recorder the state read throws.
     */
    method Stop() returns (r: Outcome)
      modifies this`elapsed, this`recording, recorder
      ensures elapsed == 0
      ensures recorder == null ==> r == Thrown(TypeError) && recording == old(recording)
      ensures recorder != null ==> r == Done && recorder.state == Inactive
      ensures recorder != null ==> recorder.calls == old(recorder.calls) + StopCalls(old(recorder.state))
      ensures recorder != null ==> recorder.listeners == old(recorder.listeners)
      ensures recorder != null ==> recorder.startFailure == old(recorder.startFailure)
      ensures recorder != null ==> recording == (old(recording) && old(recorder.state) == Inactive)
      ensures recorder != null && old(recorder.state) == Inactive ==> unchanged(recorder) && recording == old(recording)
      ensures recorder != null && old(recorder.state) != Inactive ==> Reconcile(recording, recorder.state) == NoAction
    {
      elapsed := 0;
      if recorder == null {
        return Thrown(TypeError);
      }
      if recorder.state != Inactive {
        recorder.Stop();
        recording := false;
      }
      r := Done;
    }

    /**
     * `start()`: creates a fresh session (empty chunk list, not finished,
     * started at `now`), stops a running recorder, registers the session's
     * listeners, starts the recorder with the timeslice and sets the flag.
     * When the recorder refuses to start, its error propagates after the
     * listeners were registered and before the flag is set.
     */
    method Start(now: int) returns (r: Outcome, session: Session?)
      modifies this`elapsed, this`recording, recorder
      ensures elapsed == 0
      ensures recorder == null ==> r == Thrown(TypeError) && session == null && recording == old(recording)
      ensures recorder != null ==> session != null && fresh(session) && session.View() == NewSession(now)
      ensures recorder != null ==>
                recorder.calls == old(recorder.calls) + StopCalls(old(recorder.state)) + [StartCmd(timeslice)]
      ensures recorder != null ==> recorder.listeners == old(recorder.listeners) + {session}
      ensures recorder != null ==> recorder.startFailure == old(recorder.startFailure)
      ensures recorder != null && recorder.startFailure.None? ==>
                r == Done && recorder.state == Recording && recording
                && Reconcile(recording, recorder.state) == NoAction
      ensures recorder != null && recorder.startFailure.Some? ==>
                r == Thrown(recorder.startFailure.value) && recorder.state == Inactive
                && recording == (old(recording) && old(recorder.state) == Inactive)
    {
      var s := new Session(now);
      r := Stop();
      if r.Thrown? {
        return r, null;
      }
      recorder.AddListeners(s);
      session := s;
      r := recorder.Start(timeslice);
      if r.Thrown? {
        return;
      }
      recording := true;
    }

    /** `pause()`: passed to the recorder, whose error on an inactive recorder propagates. */
    method Pause() returns (r: Outcome)
      modifies recorder
      ensures recorder == null ==> r == Thrown(TypeError)
      ensures recorder != null ==> recorder.calls == old(recorder.calls) + [PauseCmd]
      ensures recorder != null ==> recorder.listeners == old(recorder.listeners)
      ensures recorder != null ==> recorder.startFailure == old(recorder.startFailure)
      ensures recorder != null && old(recorder.state) == Inactive ==> r == Thrown(InvalidStateError) && recorder.state == Inactive
      ensures recorder != null && old(recorder.state) != Inactive ==> r == Done && recorder.state == Paused
    {
      if recorder == null {
        return Thrown(TypeError);
      }
      r := recorder.Pause();
    }

    /** `resume()`: resumes the recorder only when it is paused. */
    method Resume() returns (r: Outcome)
      modifies recorder
      ensures recorder == null ==> r == Thrown(TypeError)
      ensures recorder != null ==> r == Done
      ensures recorder != null && old(recorder.state) == Paused ==>
                recorder.state == Recording && recorder.calls == old(recorder.calls) + [ResumeCmd]
                && recorder.listeners == old(recorder.listeners) && recorder.startFailure == old(recorder.startFailure)
      ensures recorder != null && old(recorder.state) != Paused ==> unchanged(recorder)
    {
      if recorder == null {
        return Thrown(TypeError);
      }
      if recorder.state == Paused {
        r := recorder.Resume();
        assert r == Done;
      } else {
        r := Done;
      }
    }

    /**
     * `_recordingChanged(recording, recorder)`: without a recorder nothing
     * happens; otherwise the action chosen by `Reconcile` is carried out, after
     * which flag and recorder state agree, unless the recorder refused to start.
     */
    method RecordingChanged(now: int) returns (r: Outcome, session: Session?)
      modifies this`elapsed, this`recording, recorder
      ensures recorder == null ==> r == Done && session == null && elapsed == old(elapsed) && recording == old(recording)
      ensures recorder != null && recorder.startFailure.None? ==> r == Done && Synced(recording, recorder.state)
      ensures recorder != null && Reconcile(old(recording), old(recorder.state)) == NoAction ==>
                r == Done && session == null && unchanged(recorder) && elapsed == old(elapsed) && recording == old(recording)
      ensures recorder != null && Reconcile(old(recording), old(recorder.state)) == CallStart ==>
                session != null && fresh(session) && session.View() == NewSession(now) && elapsed == 0
                && recorder.calls == old(recorder.calls) + [StartCmd(timeslice)]
                && recorder.listeners == old(recorder.listeners) + {session}
                && recorder.startFailure == old(recorder.startFailure)
                && (recorder.startFailure.None? ==> r == Done && recorder.state == Recording && recording)
                && (recorder.startFailure.Some? ==>
                      r == Thrown(recorder.startFailure.value) && recorder.state == Inactive && recording)
      ensures recorder != null && Reconcile(old(recording), old(recorder.state)) == CallStop ==>
                r == Done && session == null && elapsed == 0
                && recorder.calls == old(recorder.calls) + [StopCmd]
                && recorder.listeners == old(recorder.listeners)
                && recorder.state == Inactive && !recording
                && recorder.startFailure == old(recorder.startFailure)
    {
      session := null;
      r := Done;
      if recorder == null {
        return;
      }
      if recording && recorder.state == Inactive {
        r, session := Start(now);
      } else if !recording && recorder.state != Inactive {
        r := Stop();
      }
    }

    /**
     * The session's `onDataAvailable` handler for an event handled at `now`:
     * a non-empty chunk fires one `app-media-recorder-chunk` event and is
     * appended; when the cutoff fires the session is marked finished, `stop()`
     * runs and the published elapsed time is the duration; otherwise the
     * published elapsed time is the time since the session started.
     */
    method OnDataAvailable(s: Session, eventData: Option<Chunk>, now: int) returns (r: Outcome)
      modifies this`elapsed, this`recording, this`chunkEvents, s, recorder
      ensures s.View() == Deliver(old(s.View()), eventData, now, duration)
      ensures chunkEvents == old(chunkEvents) + Kept(eventData)
      ensures !old(Fires(s.View(), now, duration)) ==>
                r == Done && elapsed == now - s.start && recording == old(recording)
                && (recorder != null ==> unchanged(recorder))
      ensures old(Fires(s.View(), now, duration)) && recorder == null ==>
                r == Thrown(TypeError) && elapsed == 0 && recording == old(recording)
      ensures old(Fires(s.View(), now, duration)) && recorder != null ==>
                r == Done && elapsed == duration && recorder.state == Inactive
                && recorder.calls == old(recorder.calls) + StopCalls(old(recorder.state))
                && recorder.listeners == old(recorder.listeners)
                && recorder.startFailure == old(recorder.startFailure)
                && recording == (old(recording) && old(recorder.state) == Inactive)
      ensures r == Done ==> elapsed == PublishedElapsed(old(s.View()), now, duration)
    {
      var elapsedNow := now - s.start;
      if eventData.Some? && |eventData.value| > 0 {
        chunkEvents := chunkEvents + [eventData.value];
        s.data := s.data + [eventData.value];
      }
      if duration > 0 && duration < elapsedNow && !s.finished {
        elapsedNow := duration;
        s.finished := true;
        r := Stop();
        if r.Thrown? {
          return;
        }
      }
      elapsed := elapsedNow;
      r := Done;
    }

    /**
     * The session's `onStop` handler: removes the session's listeners from the
     * current recorder and publishes its chunks, joined in order, as a Blob
     * typed with the current mime type.
     */
    method OnStop(s: Session) returns (r: Outcome)
      modifies this`data, recorder
      ensures recorder == null ==> r == Thrown(TypeError) && data == old(data)
      ensures recorder != null ==> r == Done && recorder.listeners == old(recorder.listeners) - {s}
      ensures recorder != null ==> recorder.state == old(recorder.state) && recorder.calls == old(recorder.calls)
      ensures recorder != null ==> recorder.startFailure == old(recorder.startFailure)
      ensures recorder != null ==> data == Some(Blob(Concat(s.data), mimeType.UnwrapOr("")))
    {
      if recorder == null {
        return Thrown(TypeError);
      }
      recorder.RemoveListeners(s);
      data := Some(NewBlob(s.data, mimeType));
      r := Done;
    }
  }

  /**
   * A recording of an audio stream: three non-empty chunks and one empty
   * event, then `stop()` and the recorder's `stop` event. The published
   * recording is the three chunks in order, typed `audio/webm`.
   */
  method RecordThreeChunks(stream: Stream, a: Chunk, b: Chunk, c: Chunk) returns (result: Option<Blob>)
    requires stream.videoTracks == 0
    requires |a| > 0 && |b| > 0 && |c| > 0
    ensures result == Some(Blob(a + b + c, "audio/webm"))
  {
    var element := new AppMediaRecorder();
    element.Configure(Some(stream), false, None);
    var recorder := element.recorder;
    assert recorder != null && recorder.startFailure == None;
    var r, session := element.Start(0);
    assert session.data == [] && recorder.state == Recording;
    r := element.OnDataAvailable(session, Some(a), 10);
    assert session.data == [a];
    r := element.OnDataAvailable(session, Some(b), 20);
    assert session.data == [a, b];
    r := element.OnDataAvailable(session, Some([]), 25);
    assert session.data == [a, b];
    r := element.OnDataAvailable(session, Some(c), 30);
    assert session.data == [a, b, c];
    r := element.Stop();
    assert element.recorder.state == Inactive && !element.recording;
    r := element.OnStop(session);
    ConcatSmall(a, b, c);
    result := element.data;
  }

  /**
   * With a duration of 500, an event 600 after the start publishes an elapsed
   * time of 500 and stops the recorder; a later event in the same session
   * does not stop it again.
   */
  method CutoffOnce(stream: Stream, a: Chunk) returns (elapsedAtCutoff: int, commands: seq<Command>)
    ensures elapsedAtCutoff == 500
    ensures commands == [StartCmd(10), StopCmd]
  {
    var element := new AppMediaRecorder();
    element.Configure(Some(stream), false, None);
    element.duration := 500;
    var r, session := element.Start(1000);
    var recorder := element.recorder;
    assert recorder.calls == [StartCmd(10)];
    r := element.OnDataAvailable(session, Some(a), 1600);
    elapsedAtCutoff := element.elapsed;
    assert recorder.calls == [StartCmd(10), StopCmd];
    r := element.OnDataAvailable(session, Some(a), 1700);
    commands := recorder.calls;
  }

  /**
   * The case the `finished` guard exists for. Session 1 reaches the cutoff
   * and stops the recorder; `start()` then opens session 2 before session 1's
   * `stop` event has removed its listeners, so a late event still reaches
   * session 1. Since session 1 is finished, that event stops nothing: the
   * recorder keeps recording, the flag stays set, and the published elapsed
   * time is session 1's unclamped 800.
   */
  method LateEventAfterCutoff(stream: Stream, a: Chunk) returns (elapsedAfter: int, stillRecording: bool, commands: seq<Command>)
    ensures elapsedAfter == 800
    ensures stillRecording
    ensures commands == [StartCmd(10), StopCmd, StartCmd(10)]
  {
    var element := new AppMediaRecorder();
    element.Configure(Some(stream), false, None);
    element.duration := 500;
    var recorder := element.recorder;
    var r, first := element.Start(1000);
    assert first.View() == NewSession(1000) && recorder.state == Recording;
    r := element.OnDataAvailable(first, Some(a), 1600);
    assert first.finished && first.start == 1000;
    assert recorder.calls == [StartCmd(10), StopCmd] && recorder.state == Inactive;
    var second;
    r, second := element.Start(1700);
    assert first.finished && first.start == 1000 && element.duration == 500;
    assert recorder.calls == [StartCmd(10), StopCmd, StartCmd(10)];
    assert recorder.state == Recording && element.recording;
    r := element.OnDataAvailable(first, Some(a), 1800);
    elapsedAfter := element.elapsed;
    stillRecording := element.recording && recorder.state == Recording;
    commands := recorder.calls;
  }
}
