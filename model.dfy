/** The call engine's state as a value, and one function per event handler
    giving the state the handler leaves behind. These functions are the
    specification that the imperative `App.CallEngine` is proved against. */
module CallModel {
  import opened Types

  /** A reading of the audio clock, or a duration, in seconds. */
  type Seconds = r: real | r >= 0.0

  /** Everything the handlers read or write.
      - `pendingIn`, `pendingOut`: the live transcript buffers of the
        person's and the agent's speech.
      - `capturedIn`, `capturedOut`: the values of those buffers as seen by
        the start handler's closure, which the session callbacks of the
        current call go on seeing.
      - `hasInputCtx`, `hasOutputCtx`, `hasMic`, `hasCapture`, `hasSession`:
        whether the input and output audio contexts, the microphone stream,
        the capture graph (analyser and script processor) and the session
        handle are held.
      - `active`: ids of the playback sources scheduled and not yet ended;
        `stopped`: ids of every source that has been told to stop.
      - `nextStart`: where on the output clock the next unit will start. */
  datatype Engine = Engine(
    status: CallStatus,
    history: seq<Entry>,
    pendingIn: string,
    pendingOut: string,
    capturedIn: string,
    capturedOut: string,
    hasInputCtx: bool,
    hasOutputCtx: bool,
    hasMic: bool,
    hasCapture: bool,
    hasSession: bool,
    active: set<nat>,
    stopped: set<nat>,
    nextStart: Seconds)

  /** The state when the page mounts. */
  function Initial(): (e: Engine)
    ensures e.status == Idle && e.history == []
    ensures e.pendingIn == "" && e.pendingOut == "" && e.capturedIn == "" && e.capturedOut == ""
    ensures !e.hasInputCtx && !e.hasOutputCtx && !e.hasMic && !e.hasCapture && !e.hasSession
    ensures e.active == {} && e.stopped == {} && e.nextStart == 0.0
  {
    Engine(Idle, [], "", "", "", "", false, false, false, false, false, {}, {}, 0.0)
  }

  /** Every audio resource released and playback reset. */
  ghost predicate AudioReleased(e: Engine)
  {
    !e.hasInputCtx && !e.hasOutputCtx && !e.hasMic && !e.hasCapture
    && e.active == {} && e.nextStart == 0.0
  }

  /** The part of the state that audio teardown leaves alone. */
  ghost predicate SameCallData(e: Engine, r: Engine)
  {
    r.history == e.history && r.pendingIn == e.pendingIn && r.pendingOut == e.pendingOut
    && r.capturedIn == e.capturedIn && r.capturedOut == e.capturedOut
  }

  /** The start button. Does nothing unless the call is idle; otherwise
      snapshots the pending texts into the new closure, resets the transcript
      and opens both audio contexts, then waits for the microphone. */
  function StartCall(e: Engine): (r: Engine)
    ensures e.status != Idle ==> r == e
    ensures e.status == Idle ==>
      r.status == Connecting && r.history == [] && r.pendingIn == "" && r.pendingOut == ""
    ensures e.status == Idle ==> r.capturedIn == e.pendingIn && r.capturedOut == e.pendingOut
    ensures e.status == Idle ==> r.hasInputCtx && r.hasOutputCtx
    ensures r.hasSession == e.hasSession && r.hasMic == e.hasMic && r.hasCapture == e.hasCapture
    ensures r.active == e.active && r.stopped == e.stopped && r.nextStart == e.nextStart
  {
    if e.status != Idle then e
    else e.(status := Connecting, history := [],
            capturedIn := e.pendingIn, capturedOut := e.pendingOut,
            pendingIn := "", pendingOut := "",
            hasInputCtx := true, hasOutputCtx := true)
  }

  /** The microphone request resolved: the stream is kept and the session
      is requested. */
  function MicGranted(e: Engine): (r: Engine)
    ensures r.hasMic && r.(hasMic := e.hasMic) == e
  {
    e.(hasMic := true)
  }

  /** The session request resolved: the handle is kept. */
  function SessionResolved(e: Engine): (r: Engine)
    ensures r.hasSession && r.(hasSession := e.hasSession) == e
  {
    e.(hasSession := true)
  }

  /** Audio teardown: disconnect capture, stop the microphone, close both
      contexts, stop every active source, clear the set, reset the clock. */
  function StopAudio(e: Engine): (r: Engine)
    ensures AudioReleased(r)
    ensures r.stopped == e.stopped + e.active
    ensures SameCallData(e, r)
    ensures r.status == e.status && r.hasSession == e.hasSession
  {
    e.(hasCapture := false, hasMic := false, hasInputCtx := false, hasOutputCtx := false,
       stopped := e.stopped + e.active, active := {}, nextStart := 0.0)
  }

  /** The start handler's failure path: either await rejected. */
  function StartFailed(e: Engine): (r: Engine)
    ensures r.status == Idle && AudioReleased(r)
    ensures SameCallData(e, r) && r.hasSession == e.hasSession
    ensures r.stopped == e.stopped + e.active
  {
    StopAudio(e.(status := Idle))
  }

  /** The session's open callback. The status becomes active first; the
      capture graph is then built, which throws (leaving it unbuilt) when the
      input context or the microphone stream is no longer held. */
  function OnOpen(e: Engine): (r: Engine)
    ensures r.status == Active
    ensures r.hasCapture <==> e.hasCapture || (e.hasInputCtx && e.hasMic)
    ensures r.(status := e.status, hasCapture := e.hasCapture) == e
  {
    e.(status := Active, hasCapture := if e.hasInputCtx && e.hasMic then true else e.hasCapture)
  }

  /** Hang up, also run on the session's error and close callbacks. Whether
      the session's close resolves or rejects, the rejection is caught and
      logged, so the outcome does not depend on it. */
  function Hangup(e: Engine): (r: Engine)
    ensures r.status == Idle && !r.hasSession && AudioReleased(r)
    ensures SameCallData(e, r)
    ensures r.stopped == e.stopped + e.active
  {
    var closing := e.(status := Disconnecting);
    var closed := if closing.hasSession then closing.(hasSession := false) else closing;
    StopAudio(closed).(status := Idle)
  }

  // ---------------------------------------------------------------------
  // The message handler, one stage per part of the message, in the order
  // the source handles them.

  /** Streaming transcription: an output delta extends the agent's buffer;
      only when there is none does an input delta extend the person's. */
  function Transcribe(e: Engine, m: Message): (r: Engine)
    ensures r.pendingOut == e.pendingOut || r.pendingIn == e.pendingIn
    ensures m.output.Some? ==>
      r.pendingOut == e.pendingOut + Fragment(m.output.value) && r.pendingIn == e.pendingIn
    ensures m.output.None? && m.input.Some? ==>
      r.pendingIn == e.pendingIn + Fragment(m.input.value) && r.pendingOut == e.pendingOut
    ensures m.output.None? && m.input.None? ==> r == e
    ensures r.(pendingIn := e.pendingIn, pendingOut := e.pendingOut) == e
  {
    if m.output.Some? then e.(pendingOut := e.pendingOut + Fragment(m.output.value))
    else if m.input.Some? then e.(pendingIn := e.pendingIn + Fragment(m.input.value))
    else e
  }

  /** Turn completion: two entries are appended, with the texts the
      closure captured (not the live buffers), and both buffers are
      emptied. */
  function CompleteTurn(e: Engine, m: Message, userTime: int, modelTime: int): (r: Engine)
    ensures !m.turnComplete ==> r == e
    ensures m.turnComplete ==>
      |r.history| == |e.history| + 2 && r.history[..|e.history|] == e.history
      && r.history[|e.history|] == Entry(User, e.capturedIn, userTime)
      && r.history[|e.history| + 1] == Entry(Model, e.capturedOut, modelTime)
      && r.pendingIn == "" && r.pendingOut == ""
    ensures r.(history := e.history, pendingIn := e.pendingIn, pendingOut := e.pendingOut) == e
  {
    if !m.turnComplete then e
    else e.(history := e.history + [Entry(User, e.capturedIn, userTime), Entry(Model, e.capturedOut, modelTime)],
            pendingIn := "", pendingOut := "")
  }

  /** Where a unit handled when the clock reads `clock` starts: never
      before the end of what is already queued, never in the past. */
  function StartTime(next: Seconds, clock: Seconds): (t: Seconds)
    ensures t >= next && t >= clock
    ensures t == next || t == clock
  {
    if next >= clock then next else clock
  }

  /** Whether a message's audio is scheduled: it has a payload and the
      output context is held. */
  predicate Plays(e: Engine, m: Message)
  {
    m.audio != "" && e.hasOutputCtx
  }

  /** The start time handed to the new source, if one is scheduled. */
  function Scheduled(e: Engine, m: Message, clock: Seconds): (s: Option<Seconds>)
    ensures s.Some? <==> Plays(e, m)
    ensures s.Some? ==> s.value == StartTime(e.nextStart, clock)
    ensures s.Some? ==> s.value >= e.nextStart && s.value >= clock
  {
    if Plays(e, m) then Some(StartTime(e.nextStart, clock)) else None
  }

  /** Gapless scheduling: the unit of length `duration` starts at
      `StartTime(nextStart, clock)`, the clock advances past it and the new
      source joins the active set. */
  function ScheduleAudio(e: Engine, m: Message, clock: Seconds, duration: Seconds, source: nat): (r: Engine)
    ensures Plays(e, m) ==>
      r.nextStart == StartTime(e.nextStart, clock) + duration && r.active == e.active + {source}
    ensures r.nextStart >= e.nextStart
    ensures !Plays(e, m) ==> r == e
    ensures r.(nextStart := e.nextStart, active := e.active) == e
  {
    if Plays(e, m) then e.(nextStart := StartTime(e.nextStart, clock) + duration, active := e.active + {source})
    else e
  }

  /** Barge-in: every active source is stopped, the set cleared, the clock
      reset to zero and the unfinished reply text dropped. */
  function Interrupt(e: Engine, m: Message): (r: Engine)
    ensures m.interrupted ==>
      r.active == {} && r.stopped == e.stopped + e.active && r.nextStart == 0.0 && r.pendingOut == ""
    ensures !m.interrupted ==> r == e
    ensures r.(active := e.active, stopped := e.stopped, nextStart := e.nextStart, pendingOut := e.pendingOut) == e
  {
    if m.interrupted then e.(stopped := e.stopped + e.active, active := {}, nextStart := 0.0, pendingOut := "")
    else e
  }

  /** The whole message handler. `clock` is the output context's current
      time, `duration` the length of the decoded payload, `source` the id of
      the fresh playback source, and the two times are the wall-clock
      readings taken for the two transcript entries. */
  function OnMessage(e: Engine, m: Message, clock: Seconds, duration: Seconds, source: nat,
                     userTime: int, modelTime: int): (r: Engine)
    ensures r.status == e.status && r.hasSession == e.hasSession
    ensures r.hasInputCtx == e.hasInputCtx && r.hasOutputCtx == e.hasOutputCtx
    ensures r.hasMic == e.hasMic && r.hasCapture == e.hasCapture
    ensures r.capturedIn == e.capturedIn && r.capturedOut == e.capturedOut
    ensures r.history == if m.turnComplete
                         then e.history + [Entry(User, e.capturedIn, userTime), Entry(Model, e.capturedOut, modelTime)]
                         else e.history
    ensures m.interrupted ==> r.active == {} && r.nextStart == 0.0 && r.pendingOut == ""
    ensures m.interrupted ==>
      r.stopped == e.stopped + e.active + (if Plays(e, m) then {source} else {})
    ensures !m.interrupted ==> r.stopped == e.stopped && r.nextStart >= e.nextStart
    ensures !m.interrupted ==> r.active == e.active + (if Plays(e, m) then {source} else {})
  {
    var heard := Transcribe(e, m);
    var turned := CompleteTurn(heard, m, userTime, modelTime);
    var played := ScheduleAudio(turned, m, clock, duration, source);
    Interrupt(played, m)
  }

  /** A source's `ended` event: that source leaves the active set. */
  function OnEnded(e: Engine, source: nat): (r: Engine)
    ensures source !in r.active && r.active == e.active - {source}
    ensures r.(active := e.active) == e
  {
    e.(active := e.active - {source})
  }
}
