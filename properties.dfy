/** Properties of the call engine over whole runs of events: the transcript
    invariants, growth of the history, gapless playback, barge-in and
    teardown. */
module CallProperties {
  import opened Types
  import opened CallModel

  /** Everything that can happen to the engine, in the order it happens. */
  datatype Event =
    | Start                 // the start button
    | MicReady              // the microphone request resolved
    | SessionReady          // the session request resolved
    | StartRejected         // the microphone or session request rejected
    | Open                  // the session's open callback
    | Incoming(m: Message, clock: Seconds, duration: Seconds, source: nat, userTime: int, modelTime: int)
    | Ended(source: nat)    // a playback source finished on its own
    | HangUp                // the hang-up button, or the session's error or close callback

  function Step(e: Engine, ev: Event): Engine
  {
    match ev
    case Start => StartCall(e)
    case MicReady => MicGranted(e)
    case SessionReady => SessionResolved(e)
    case StartRejected => StartFailed(e)
    case Open => OnOpen(e)
    case Incoming(m, clock, duration, source, userTime, modelTime) =>
      OnMessage(e, m, clock, duration, source, userTime, modelTime)
    case Ended(source) => OnEnded(e, source)
    case HangUp => Hangup(e)
  }

  function Run(e: Engine, evs: seq<Event>): Engine
    decreases |evs|
  {
    if evs == [] then e else Run(Step(e, evs[0]), evs[1..])
  }

  // ---------------------------------------------------------------------
  // The transcript invariant

  /** The role of the entry at position `i` of a well-formed history. */
  function RoleAt(i: nat): Role
  {
    if i % 2 == 0 then User else Model
  }

  /** The history is a list of (person, agent) pairs, and every entry's text
      is the closure's snapshot for its role: the live buffers never reach
      the history. */
  ghost predicate Paired(e: Engine)
  {
    |e.history| % 2 == 0
    && forall i :: 0 <= i < |e.history| ==>
         e.history[i].role == RoleAt(i)
         && e.history[i].text == (if i % 2 == 0 then e.capturedIn else e.capturedOut)
  }

  /** Without an output context nothing is playing and the clock is zero. */
  ghost predicate Quiet(e: Engine)
  {
    !e.hasOutputCtx ==> e.active == {} && e.nextStart == 0.0
  }

  ghost predicate Inv(e: Engine)
  {
    Paired(e) && Quiet(e)
  }

  lemma InitialInv()
    ensures Inv(Initial())
  {
  }

  lemma AppendTurnKeepsPaired(e: Engine, userTime: int, modelTime: int)
    requires Paired(e)
    ensures Paired(e.(history := e.history + [Entry(User, e.capturedIn, userTime), Entry(Model, e.capturedOut, modelTime)]))
  {
    var n := |e.history|;
    var h := e.history + [Entry(User, e.capturedIn, userTime), Entry(Model, e.capturedOut, modelTime)];
    forall i | 0 <= i < |h|
      ensures h[i].role == RoleAt(i)
      ensures h[i].text == (if i % 2 == 0 then e.capturedIn else e.capturedOut)
    {
      if i < n {
        assert h[i] == e.history[i];
      } else if i == n {
        assert i % 2 == 0;
      } else {
        assert i == n + 1 && i % 2 == 1;
      }
    }
  }

  /** Every event keeps the invariant. */
  lemma StepKeepsInv(e: Engine, ev: Event)
    requires Inv(e)
    ensures Inv(Step(e, ev))
  {
    match ev
    case Incoming(m, clock, duration, source, userTime, modelTime) =>
      var heard := Transcribe(e, m);
      var turned := CompleteTurn(heard, m, userTime, modelTime);
      if m.turnComplete {
        AppendTurnKeepsPaired(heard, userTime, modelTime);
      }
      assert Paired(turned);
    case _ =>
  }

  /** The invariant holds after every run from a state that satisfies it. */
  lemma {:induction false} RunKeepsInv(e: Engine, evs: seq<Event>)
    requires Inv(e)
    ensures Inv(Run(e, evs))
    decreases |evs|
  {
    if evs != [] {
      StepKeepsInv(e, evs[0]);
      RunKeepsInv(Step(e, evs[0]), evs[1..]);
    }
  }

  /** In every state the model reaches the history alternates person, agent, and
      every entry's text is the snapshot the start handler captured, so the
      live transcript buffers are never recorded. */
  lemma HistoryIsSnapshot(evs: seq<Event>)
    ensures var r := Run(Initial(), evs);
      |r.history| % 2 == 0
      && (forall i :: 0 <= i < |r.history| ==> r.history[i].role == RoleAt(i))
      && (forall i :: 0 <= i < |r.history| && i % 2 == 0 ==> r.history[i].text == r.capturedIn)
      && (forall i :: 0 <= i < |r.history| && i % 2 == 1 ==> r.history[i].text == r.capturedOut)
  {
    InitialInv();
    RunKeepsInv(Initial(), evs);
  }

  /** In every state the model reaches, an engine without an output context has
      nothing playing and its clock at zero. */
  lemma NoContextIsQuiet(evs: seq<Event>)
    ensures var r := Run(Initial(), evs);
      !r.hasOutputCtx ==> r.active == {} && r.nextStart == 0.0
  {
    InitialInv();
    RunKeepsInv(Initial(), evs);
  }

  // ---------------------------------------------------------------------
  // Growth of the history

  /** How many completed turns a run reports. */
  function TurnCount(evs: seq<Event>): nat
    decreases |evs|
  {
    if evs == [] then 0
    else (if evs[0].Incoming? && evs[0].m.turnComplete then 1 else 0) + TurnCount(evs[1..])
  }

  /** Two entries per completed turn a single event reports. */
  function TurnEntries(ev: Event): nat
  {
    if ev.Incoming? && ev.m.turnComplete then 2 else 0
  }

  lemma StepHistory(e: Engine, ev: Event)
    requires !ev.Start?
    ensures e.history <= Step(e, ev).history
    ensures |Step(e, ev).history| == |e.history| + TurnEntries(ev)
  {
  }

  /** Within a call (no start request), the history only grows: what was
      there stays, and it gains exactly two entries per completed turn. */
  lemma {:induction false} HistoryAppendOnly(e: Engine, evs: seq<Event>)
    requires forall k :: 0 <= k < |evs| ==> !evs[k].Start?
    ensures e.history <= Run(e, evs).history
    ensures |Run(e, evs).history| == |e.history| + 2 * TurnCount(evs)
    decreases |evs|
  {
    if evs != [] {
      var e1 := Step(e, evs[0]);
      var rest := evs[1..];
      assert forall k :: 0 <= k < |rest| ==> rest[k] == evs[k + 1];
      StepHistory(e, evs[0]);
      HistoryAppendOnly(e1, rest);
      var h, h1, hr := e.history, e1.history, Run(e1, rest).history;
      assert Run(e, evs) == Run(e1, rest);
      assert h == h1[..|h|] && h1 == hr[..|h1|];
      assert h == hr[..|h|];
      assert TurnCount(evs) * 2 == TurnEntries(evs[0]) + 2 * TurnCount(rest);
    }
  }

  // ---------------------------------------------------------------------
  // Gapless playback

  /** An event that neither ends the call nor interrupts playback: any
      open, grant, resolution, `ended` event or message without the
      interruption flag. */
  ghost predicate Calm(ev: Event)
  {
    !ev.Start? && !ev.StartRejected? && !ev.HangUp? && !(ev.Incoming? && ev.m.interrupted)
  }

  /** A scheduled playback unit: where it starts, how long it lasts, the
      clock reading when its message was handled, and its source. */
  datatype Unit = Unit(start: Seconds, duration: Seconds, clock: Seconds, source: nat)

  /** The unit an event schedules, if any. */
  function Emitted(e: Engine, ev: Event): seq<Unit>
  {
    if ev.Incoming? && Plays(e, ev.m)
    then [Unit(StartTime(e.nextStart, ev.clock), ev.duration, ev.clock, ev.source)]
    else []
  }

  /** The units a run schedules, in the order their messages arrive. */
  function Units(e: Engine, evs: seq<Event>): seq<Unit>
    decreases |evs|
  {
    if evs == [] then [] else Emitted(e, evs[0]) + Units(Step(e, evs[0]), evs[1..])
  }

  function SourcesOf(us: seq<Unit>): set<nat>
    decreases |us|
  {
    if us == [] then {} else {us[0].source} + SourcesOf(us[1..])
  }

  /** One calm event: the output context stays as it was, the clock moves
      to the end of the unit it schedules or stays put, and without an
      `ended` event the scheduled source is the only one to join. */
  lemma CalmStep(e: Engine, ev: Event)
    requires Calm(ev)
    ensures Step(e, ev).hasOutputCtx == e.hasOutputCtx
    ensures Step(e, ev).nextStart ==
      if Emitted(e, ev) == [] then e.nextStart
      else Emitted(e, ev)[0].start + Emitted(e, ev)[0].duration
    ensures !ev.Ended? ==> Step(e, ev).active == e.active + SourcesOf(Emitted(e, ev))
  {
  }

  /** A unit queued behind one that ends at `end` starts no earlier than
      `end`, and exactly at `end` if and only if its message was handled by
      then. */
  lemma Follows(end: Seconds, clock: Seconds)
    ensures StartTime(end, clock) >= end
    ensures StartTime(end, clock) == end <==> clock <= end
  {
  }

  /** Consecutive units never overlap, and touch exactly when the later
      unit's message was handled before the earlier unit ended. */
  ghost predicate BackToBack(us: seq<Unit>)
  {
    forall i :: 0 <= i < |us| - 1 ==>
      us[i + 1].start >= us[i].start + us[i].duration
      && (us[i + 1].start == us[i].start + us[i].duration <==> us[i + 1].clock <= us[i].start + us[i].duration)
  }

  /** Over any calm run (transcripts, completed turns, opens and `ended`
      events may come between the units): the first unit starts at the max
      of the old clock and its message's arrival, the clock never moves
      backwards, and it ends where the last unit ends. */
  lemma {:induction false} GaplessClock(e: Engine, evs: seq<Event>)
    requires forall k :: 0 <= k < |evs| ==> Calm(evs[k])
    ensures var us := Units(e, evs);
      |us| > 0 ==> us[0].start == StartTime(e.nextStart, us[0].clock)
    ensures var us := Units(e, evs);
      Run(e, evs).nextStart == if us == [] then e.nextStart else us[|us| - 1].start + us[|us| - 1].duration
    ensures Run(e, evs).nextStart >= e.nextStart
    ensures Run(e, evs).hasOutputCtx == e.hasOutputCtx
    decreases |evs|
  {
    if evs != [] {
      var e1 := Step(e, evs[0]);
      var rest := evs[1..];
      assert forall k :: 0 <= k < |rest| ==> rest[k] == evs[k + 1];
      CalmStep(e, evs[0]);
      GaplessClock(e1, rest);
      var u0 := Emitted(e, evs[0]);
      var u1 := Units(e1, rest);
      var us := Units(e, evs);
      assert us == u0 + u1;
      assert Run(e, evs) == Run(e1, rest);
      if u1 != [] {
        assert us[|us| - 1] == u1[|u1| - 1];
      }
    }
  }

  /** A unit followed by a back-to-back queue that was scheduled from the
      unit's end is again back-to-back. */
  lemma {:induction false} PrependBackToBack(u: Unit, us: seq<Unit>)
    requires BackToBack(us)
    requires us != [] ==> us[0].start == StartTime(u.start + u.duration, us[0].clock)
    ensures BackToBack([u] + us)
  {
    var all := [u] + us;
    forall i | 0 <= i < |all| - 1
      ensures all[i + 1].start >= all[i].start + all[i].duration
      ensures all[i + 1].start == all[i].start + all[i].duration
              <==> all[i + 1].clock <= all[i].start + all[i].duration
    {
      if i > 0 {
        assert all[i] == us[i - 1] && all[i + 1] == us[i];
      } else {
        Follows(u.start + u.duration, us[0].clock);
      }
    }
  }

  /** Over any run without a start, a failed start, a hang-up or a barge-in,
      consecutive units never overlap, and a unit starts exactly where the
      previous one ends if and only if its message arrived before that
      moment. */
  lemma {:induction false} GaplessPlayback(e: Engine, evs: seq<Event>)
    requires forall k :: 0 <= k < |evs| ==> Calm(evs[k])
    ensures BackToBack(Units(e, evs))
    decreases |evs|
  {
    if evs != [] {
      var e1 := Step(e, evs[0]);
      var rest := evs[1..];
      assert forall k :: 0 <= k < |rest| ==> rest[k] == evs[k + 1];
      CalmStep(e, evs[0]);
      GaplessPlayback(e1, rest);
      GaplessClock(e1, rest);
      var u0 := Emitted(e, evs[0]);
      var u1 := Units(e1, rest);
      assert Units(e, evs) == u0 + u1;
      if u0 != [] {
        assert u0 == [u0[0]];
        PrependBackToBack(u0[0], u1);
      } else {
        assert u0 + u1 == u1;
      }
    }
  }

  /** Over a calm run without `ended` events, every scheduled source joins
      the active set and no other does. */
  lemma {:induction false} GaplessSources(e: Engine, evs: seq<Event>)
    requires forall k :: 0 <= k < |evs| ==> Calm(evs[k]) && !evs[k].Ended?
    ensures Run(e, evs).active == e.active + SourcesOf(Units(e, evs))
    decreases |evs|
  {
    if evs != [] {
      var e1 := Step(e, evs[0]);
      var rest := evs[1..];
      assert forall k :: 0 <= k < |rest| ==> rest[k] == evs[k + 1];
      CalmStep(e, evs[0]);
      GaplessSources(e1, rest);
      var u0 := Emitted(e, evs[0]);
      var u1 := Units(e1, rest);
      assert Units(e, evs) == u0 + u1;
      assert Run(e, evs) == Run(e1, rest);
      if u0 != [] {
        assert u0 + u1 == [u0[0]] + u1;
        assert SourcesOf(u0 + u1) == {u0[0].source} + SourcesOf(u1);
      } else {
        assert u0 + u1 == u1;
      }
    }
  }

  // ---------------------------------------------------------------------
  // Barge-in and teardown

  /** After a barge-in, history and the person's buffer are untouched, and
      the next unit starts at the clock reading when its message arrives,
      since the reset clock is zero. */
  lemma InterruptThenPlay(e: Engine, m: Message, clock: Seconds, duration: Seconds, source: nat,
                          userTime: int, modelTime: int, next: Message, nextClock: Seconds)
    requires m.interrupted && !m.turnComplete && m.input.None? && e.hasOutputCtx && next.audio != ""
    ensures var r := OnMessage(e, m, clock, duration, source, userTime, modelTime);
      r.history == e.history && r.pendingIn == e.pendingIn && r.active == {} && r.pendingOut == ""
      && Scheduled(r, next, nextClock) == Some(nextClock)
  {
  }

  /** Hanging up twice is the same as hanging up once, and so is stopping
      the audio twice. */
  lemma TeardownIdempotent(e: Engine)
    ensures Hangup(Hangup(e)) == Hangup(e)
    ensures StopAudio(StopAudio(e)) == StopAudio(e)
  {
  }

  /** The status moves Idle to Connecting only on a start request, to
      Active only on the open callback, and back to Idle only on hang-up or
      a failed start; no other event changes it. */
  lemma StatusTransitions(e: Engine, ev: Event)
    ensures var s := Step(e, ev).status;
      (s != e.status ==> ev.Start? || ev.Open? || ev.StartRejected? || ev.HangUp?)
      && (ev.Start? && s != e.status ==> e.status == Idle && s == Connecting)
      && (ev.Open? ==> s == Active)
      && (ev.StartRejected? || ev.HangUp? ==> s == Idle)
  {
  }

  /** Hanging up while the microphone request is still pending does not
      cancel it: the start continues, the stream acquired after the teardown
      is kept, the session is still opened and its handle stored, and the
      open callback makes the call active although both audio contexts were
      already released, so the capture graph cannot be built. The stream
      stays held until the next teardown. */
  lemma StaleOpenAfterHangup()
    ensures var r := Run(Initial(), [Start, HangUp, MicReady, SessionReady, Open]);
      r.status == Active && !r.hasInputCtx && !r.hasOutputCtx && !r.hasCapture
      && r.hasMic && r.hasSession
  {
  }
}
