/**
 * The pure rules of the recording protocol: the MediaRecorder state
 * enumeration, the reconcile rule that keeps the `recording` flag in step with
 * the recorder's state, and what one `dataavailable` event does to the state
 * captured by a recording session.
 */
module RecordingProtocol {
  import opened Wrappers
  import opened Blobs

  /** The RecordingState enumeration of the W3C MediaStream Recording API. */
  datatype RecordingState = Inactive | Recording | Paused

  /** The enumeration's string values. */
  function StateName(s: RecordingState): (r: string)
    ensures ParseRecordingState(r) == Some(s)
  {
    match s
    case Inactive => "inactive"
    case Recording => "recording"
    case Paused => "paused"
  }

  function ParseRecordingState(name: string): Option<RecordingState> {
    if name == "inactive" then Some(Inactive)
    else if name == "recording" then Some(Recording)
    else if name == "paused" then Some(Paused)
    else None
  }

  // ---------------------------------------------------------------------------
  // Reconciling the `recording` flag with the recorder
  // ---------------------------------------------------------------------------

  /** What `_recordingChanged` does. */
  datatype Action = NoAction | CallStart | CallStop

  /** The flag says recording exactly when the recorder is not inactive. */
  predicate Synced(recording: bool, state: RecordingState) {
    recording == (state != Inactive)
  }

  /**
   * The reconcile rule for a present recorder: start when the flag is set and
   * the recorder is inactive, stop when the flag is clear and the recorder is
   * not inactive, and nothing when flag and state already agree.
   */
  function Reconcile(recording: bool, state: RecordingState): (a: Action)
    ensures a == NoAction <==> Synced(recording, state)
    ensures a == CallStart ==> recording && state == Inactive
    ensures a == CallStop ==> !recording && state != Inactive
  {
    if recording && state == Inactive then CallStart
    else if !recording && state != Inactive then CallStop
    else NoAction
  }

  /** The methods the element invokes on its recorder, as logged by the recorder. */
  datatype Command = StartCmd(timeslice: int) | StopCmd | PauseCmd | ResumeCmd

  /** The commands `stop()` sends to a recorder in the given state. */
  function StopCalls(state: RecordingState): seq<Command> {
    if state != Inactive then [StopCmd] else []
  }

  // ---------------------------------------------------------------------------
  // One recording session
  // ---------------------------------------------------------------------------

  /**
   * The variables a call of `start()` captures in its closures: the start
   * time, the chunk list and the `finished` flag.
   */
  datatype SessionView = SessionView(start: int, data: seq<Chunk>, finished: bool)

  function NewSession(now: int): SessionView {
    SessionView(now, [], false)
  }

  /** `event.data && event.data.size > 0`. */
  predicate IsChunk(eventData: Option<Chunk>) {
    eventData.Some? && |eventData.value| > 0
  }

  /** The chunks an event contributes: its data when non-empty, else none. */
  function Kept(eventData: Option<Chunk>): seq<Chunk> {
    if IsChunk(eventData) then [eventData.value] else []
  }

  /** The duration cutoff fires: a positive duration, strictly exceeded, not yet fired. */
  predicate Fires(v: SessionView, now: int, duration: int) {
    duration > 0 && duration < now - v.start && !v.finished
  }

  /**
   * The captured state after `onDataAvailable` handled an event at time `now`:
   * the start time is kept, the chunk list only grows, by at most the event's
   * data, and `finished` changes exactly when the cutoff fires, and only from
   * false to true.
   */
  function Deliver(v: SessionView, eventData: Option<Chunk>, now: int, duration: int): (r: SessionView)
    ensures r.start == v.start
    ensures |r.data| == |v.data| + (if IsChunk(eventData) then 1 else 0)
    ensures r.data[..|v.data|] == v.data
    ensures IsChunk(eventData) ==> r.data[|v.data|] == eventData.value
    ensures r.finished != v.finished <==> Fires(v, now, duration)
    ensures v.finished ==> r.finished
  {
    v.(data := v.data + Kept(eventData), finished := v.finished || Fires(v, now, duration))
  }

  /**
   * The elapsed time `onDataAvailable` publishes: clamped to the duration while
   * the session has not finished, the raw time since start otherwise.
   */
  function PublishedElapsed(v: SessionView, now: int, duration: int): (r: int)
    ensures duration > 0 && !v.finished ==> r <= duration
    ensures v.finished || duration <= 0 ==> r == now - v.start
  {
    if Fires(v, now, duration) then duration else now - v.start
  }

  /**
   * One `dataavailable` event: its data, the clock reading when it is handled,
   * and the `duration` property at that moment (the handler reads it afresh
   * for every event).
   */
  datatype DataEvent = DataEvent(data: Option<Chunk>, now: int, duration: int)

  /** The session's captured state after one event. */
  function Step(v: SessionView, e: DataEvent): SessionView {
    Deliver(v, e.data, e.now, e.duration)
  }

  /** The captured state after a session handled the events in order. */
  function DeliverAll(v: SessionView, events: seq<DataEvent>): SessionView
    decreases |events|
  {
    if events == [] then v
    else DeliverAll(Step(v, events[0]), events[1..])
  }

  /** The chunks kept from the events, in order. */
  function KeptChunks(events: seq<DataEvent>): seq<Chunk> {
    if events == [] then [] else Kept(events[0].data) + KeptChunks(events[1..])
  }

  /** How many times the cutoff fires (and calls `stop()`) while the events are handled. */
  function CutoffCount(v: SessionView, events: seq<DataEvent>): nat
    decreases |events|
  {
    if events == [] then 0
    else
      var fired := if Fires(v, events[0].now, events[0].duration) then 1 else 0;
      fired + CutoffCount(Step(v, events[0]), events[1..])
  }

  /**
   * The chunk list is append-only: after any events it is the old list followed
   * by the non-empty event data in arrival order; the start time never changes.
   */
  lemma {:induction false} DeliverAllKeepsChunks(v: SessionView, events: seq<DataEvent>)
    ensures DeliverAll(v, events).data == v.data + KeptChunks(events)
    ensures DeliverAll(v, events).start == v.start
    decreases |events|
  {
    if events != [] {
      var v' := Step(v, events[0]);
      DeliverAllKeepsChunks(v', events[1..]);
      assert v.data + Kept(events[0].data) + KeptChunks(events[1..])
          == v.data + (Kept(events[0].data) + KeptChunks(events[1..]));
    }
  }

  /** Once set, `finished` stays set for the rest of the session, whatever the durations. */
  lemma {:induction false} FinishedStays(v: SessionView, events: seq<DataEvent>)
    requires v.finished
    ensures DeliverAll(v, events).finished
    decreases |events|
  {
    if events != [] {
      FinishedStays(Step(v, events[0]), events[1..]);
    }
  }

  /**
   * The cutoff fires at most once per session, even when `duration` changes
   * between events: exactly once if the session ends finished having started
   * unfinished, and never otherwise.
   */
  lemma {:induction false} CutoffAtMostOnce(v: SessionView, events: seq<DataEvent>)
    ensures CutoffCount(v, events)
         == if !v.finished && DeliverAll(v, events).finished then 1 else 0
    ensures CutoffCount(v, events) <= 1
    decreases |events|
  {
    if events != [] {
      var v' := Step(v, events[0]);
      CutoffAtMostOnce(v', events[1..]);
      if v'.finished {
        FinishedStays(v', events[1..]);
      }
    }
  }

  /** The cutoff condition of one event, against the session's start time. */
  predicate ExceedsDuration(start: int, e: DataEvent) {
    e.duration > 0 && e.duration < e.now - start
  }

  /**
   * A session that has not finished finishes exactly when some event is
   * handled while `duration` is positive and strictly below the time since
   * the start.
   */
  lemma {:induction false} CutoffFiresIff(v: SessionView, events: seq<DataEvent>)
    requires !v.finished
    ensures DeliverAll(v, events).finished
        <==> exists i :: 0 <= i < |events| && ExceedsDuration(v.start, events[i])
    decreases |events|
  {
    if events != [] {
      var v' := Step(v, events[0]);
      if v'.finished {
        FinishedStays(v', events[1..]);
        assert ExceedsDuration(v.start, events[0]);
      } else {
        CutoffFiresIff(v', events[1..]);
        if exists i :: 0 <= i < |events| && ExceedsDuration(v.start, events[i]) {
          var i :| 0 <= i < |events| && ExceedsDuration(v.start, events[i]);
          assert i > 0;
          assert events[1..][i - 1] == events[i];
        }
        if exists j :: 0 <= j < |events[1..]| && ExceedsDuration(v'.start, events[1..][j]) {
          var j :| 0 <= j < |events[1..]| && ExceedsDuration(v'.start, events[1..][j]);
          assert events[j + 1] == events[1..][j];
        }
      }
    }
  }

  /**
   * The artifact a session finalizes after any events holds the non-empty
   * event data joined in arrival order; a session with no chunks gives empty
   * content.
   */
  lemma SessionArtifact(start: int, events: seq<DataEvent>, mimeType: Option<string>)
    ensures NewBlob(DeliverAll(NewSession(start), events).data, mimeType).content
         == Concat(KeptChunks(events))
    ensures KeptChunks(events) == [] ==> NewBlob(DeliverAll(NewSession(start), events).data, mimeType).content == []
  {
    DeliverAllKeepsChunks(NewSession(start), events);
    assert [] + KeptChunks(events) == KeptChunks(events);
  }
}
