/** The call engine as the page runs it: one object whose fields are the
    page's state cells and reference cells, and one method per handler,
    each proved to leave the state its `CallModel` function describes. */
module App {
  import opened Types
  import opened CallModel

  class CallEngine {
    var status: CallStatus
    var history: seq<Entry>
    var pendingIn: string
    var pendingOut: string
    // the pending texts as the start handler's closure saw them
    var capturedIn: string
    var capturedOut: string
    var hasInputCtx: bool
    var hasOutputCtx: bool
    var hasMic: bool
    var hasCapture: bool
    var hasSession: bool
    // ids of the playback sources scheduled and not yet ended
    var active: set<nat>
    // ids of every source that has been told to stop
    var stopped: set<nat>
    var nextStart: Seconds

    /** The object's state as a `CallModel.Engine` value. */
    function State(): Engine
      reads this
    {
      Engine(status, history, pendingIn, pendingOut, capturedIn, capturedOut,
             hasInputCtx, hasOutputCtx, hasMic, hasCapture, hasSession,
             active, stopped, nextStart)
    }

    /** The page mounts: idle, empty transcript, nothing held. */
    constructor ()
      ensures State() == Initial()
    {
      status := Idle;
      history := [];
      pendingIn, pendingOut := "", "";
      capturedIn, capturedOut := "", "";
      hasInputCtx, hasOutputCtx, hasMic, hasCapture, hasSession := false, false, false, false, false;
      active, stopped := {}, {};
      nextStart := 0.0;
    }

    /** Stops every active source, one at a time (a source that has already
        finished ignores the request), then empties the set. */
    method StopSources()
      modifies this`active, this`stopped
      ensures active == {} && stopped == old(stopped) + old(active)
    {
      var remaining := active;
      while remaining != {}
        invariant remaining <= old(active) && active == old(active)
        invariant stopped == old(stopped) + (old(active) - remaining)
        decreases remaining
      {
        var s :| s in remaining;
        stopped := stopped + {s};
        remaining := remaining - {s};
      }
      active := {};
    }

    /** Releases capture, microphone, both contexts and all playback. */
    method StopAudio()
      modifies this
      ensures State() == CallModel.StopAudio(old(State()))
    {
      hasCapture := false;
      hasMic := false;
      hasInputCtx := false;
      hasOutputCtx := false;
      StopSources();
      nextStart := 0.0;
    }

    /** Hang up: mark the call disconnecting, close and drop the session
        (a rejected close is logged and ignored), release the audio, go
        idle. The transcript is kept. */
    method Hangup()
      modifies this
      ensures State() == CallModel.Hangup(old(State()))
      ensures status == Idle && !hasSession && active == {} && nextStart == 0.0
      ensures history == old(history)
    {
      status := Disconnecting;
      if hasSession {
        hasSession := false;
      }
      StopAudio();
      status := Idle;
    }

    /** The start button, up to its first wait (for the microphone). */
    method StartCall()
      modifies this
      ensures State() == CallModel.StartCall(old(State()))
      ensures old(status) != Idle ==> State() == old(State())
    {
      if status != Idle {
        return;
      }
      status := Connecting;
      history := [];
      capturedIn, capturedOut := pendingIn, pendingOut;
      pendingIn := "";
      pendingOut := "";
      hasInputCtx := true;
      hasOutputCtx := true;
    }

    /** The microphone request resolved; the session is then requested. */
    method MicGranted()
      modifies this
      ensures State() == CallModel.MicGranted(old(State()))
      ensures hasMic
    {
      hasMic := true;
    }

    /** The session request resolved. */
    method SessionResolved()
      modifies this
      ensures State() == CallModel.SessionResolved(old(State()))
      ensures hasSession
    {
      hasSession := true;
    }

    /** Either request of the start handler rejected. */
    method StartFailed()
      modifies this
      ensures State() == CallModel.StartFailed(old(State()))
      ensures status == Idle && active == {} && !hasOutputCtx
    {
      status := Idle;
      StopAudio();
    }

    /** The session's open callback: active first, then the capture graph,
        which cannot be built once the input context or the microphone has
        been released. */
    method OnOpen()
      modifies this
      ensures State() == CallModel.OnOpen(old(State()))
      ensures status == Active
    {
      status := Active;
      if hasInputCtx && hasMic {
        hasCapture := true;
      }
    }

    /** Transcription deltas: output first; input only when there is no
        output delta. */
    method HandleTranscription(m: Message)
      modifies this
      ensures State() == Transcribe(old(State()), m)
    {
      if m.output.Some? {
        pendingOut := pendingOut + Fragment(m.output.value);
      } else if m.input.Some? {
        pendingIn := pendingIn + Fragment(m.input.value);
      }
    }

    /** Turn completion: the closure's snapshot texts are recorded. */
    method HandleTurnComplete(m: Message, userTime: int, modelTime: int)
      modifies this
      ensures State() == CompleteTurn(old(State()), m, userTime, modelTime)
    {
      if m.turnComplete {
        history := history + [Entry(User, capturedIn, userTime), Entry(Model, capturedOut, modelTime)];
        pendingIn := "";
        pendingOut := "";
      }
    }

    /** Audio: raise the clock to the present, start the decoded unit there,
        advance the clock by its length, remember the source. */
    method HandleAudio(m: Message, clock: Seconds, duration: Seconds, source: nat)
      returns (start: Option<Seconds>)
      modifies this
      ensures start == Scheduled(old(State()), m, clock)
      ensures State() == ScheduleAudio(old(State()), m, clock, duration, source)
    {
      start := None;
      if m.audio != "" && hasOutputCtx {
        nextStart := StartTime(nextStart, clock);
        start := Some(nextStart);
        nextStart := nextStart + duration;
        active := active + {source};
      }
    }

    /** Barge-in: stop everything playing, reset the clock, drop the
        unfinished reply. */
    method HandleInterruption(m: Message)
      modifies this
      ensures State() == Interrupt(old(State()), m)
    {
      if m.interrupted {
        StopSources();
        nextStart := 0.0;
        pendingOut := "";
      }
    }

    /** The session's message callback; returns the start time given to the
        new playback source, if the message's audio was scheduled. */
    method OnMessage(m: Message, clock: Seconds, duration: Seconds, source: nat,
                     userTime: int, modelTime: int) returns (start: Option<Seconds>)
      modifies this
      ensures start == Scheduled(old(State()), m, clock)
      ensures State() == CallModel.OnMessage(old(State()), m, clock, duration, source, userTime, modelTime)
    {
      HandleTranscription(m);
      HandleTurnComplete(m, userTime, modelTime);
      start := HandleAudio(m, clock, duration, source);
      HandleInterruption(m);
    }

    /** A playback source's `ended` event. */
    method OnEnded(source: nat)
      modifies this
      ensures State() == CallModel.OnEnded(old(State()), source)
      ensures active == old(active) - {source}
    {
      active := active - {source};
    }
  }

  /** Two units arriving at clock 0 with lengths 0.5 and 0.3 play at 0 and
      0.5; a barge-in during playback empties the active set and resets the
      clock, and the next unit, arriving when the clock reads 0.6, starts
      at 0.6. */
  method GaplessThenBargeIn()
  {
    var engine := new CallEngine();
    engine.StartCall();
    engine.MicGranted();
    engine.SessionResolved();
    engine.OnOpen();
    assert engine.status == Active && engine.hasOutputCtx;

    var audio := Message(None, None, false, "AAAA", false);
    var first := engine.OnMessage(audio, 0.0, 0.5, 1, 0, 0);
    assert first == Some(0.0);
    var second := engine.OnMessage(audio, 0.0, 0.3, 2, 0, 0);
    assert second == Some(0.5);
    assert engine.nextStart == 0.8 && engine.active == {1, 2};

    var bargeIn := Message(None, None, false, "", true);
    var none := engine.OnMessage(bargeIn, 0.2, 0.0, 3, 0, 0);
    assert none == None;
    assert engine.active == {} && engine.nextStart == 0.0 && engine.stopped == {1, 2};

    var third := engine.OnMessage(audio, 0.6, 0.4, 4, 0, 0);
    assert third == Some(0.6);
    assert engine.history == [];

    engine.Hangup();
    assert engine.status == Idle && engine.active == {} && !engine.hasSession;
  }
}
