# BharatAI call engine, modelled in Dafny

BharatAI is a browser page for live voice calls with a speech agent. This
project models the call engine inside its `App` component. It covers four
parts:

- the call lifecycle (`IDLE`, `CONNECTING`, `ACTIVE`, `DISCONNECTING`),
  driven by the start button, the session's open, error and close
  callbacks, the hang-up button, and the start handler's failure path;
- the transcript aggregator: two pending buffers collect streaming
  transcription deltas, and each completed turn appends a user entry and a
  model entry to the history;
- the gapless playback scheduler: each decoded unit starts at
  `max(nextStart, currentTime)`, `nextStart` advances by the unit's length,
  and the source stays in an active set until its `ended` event;
- barge-in and teardown: an interruption stops every active source, resets
  the clock to zero and drops the unfinished reply text. Hang-up releases
  everything and returns to idle, whether the session's close call
  resolves or rejects.

Files:

- `types.dfy` (module `Types`): the status, role, transcript entry and
  inbound message shapes.
- `model.dfy` (module `CallModel`): the engine state as a value (`Engine`),
  with one function per handler. These functions are the specification.
- `properties.dfy` (module `CallProperties`): events, runs of events, and
  the lemmas about whole runs.
- `engine.dfy` (module `App`): class `CallEngine`, whose fields are the
  page's state and reference cells. Each handler is an imperative method
  proved to leave the state the matching `CallModel` function gives. A
  client method, `GaplessThenBargeIn`, plays two units, interrupts, plays
  again and hangs up, using only the class contracts.

The model follows the code as written, including these behaviours:

- The message handler records the transcript texts that the start
  handler's closure captured, not the live buffers. Those are the pending
  texts at the moment the start button was pressed, and the start handler
  then clears the buffers. `capturedIn` and `capturedOut` hold that
  snapshot. `HistoryIsSnapshot` proves that, in every state the model can
  reach, every history entry's text is the snapshot of its role. On the
  first call the snapshot is empty, so every recorded entry has empty
  text. The model keeps one snapshot, taken by the latest start (see
  "Left out").
- Transcription is `if … else if`: a message that carries both an output
  delta and an input delta extends only the agent's buffer.
- A transcription object without its `text` field appends the word
  "undefined", as JavaScript string concatenation does (`Types.Fragment`).
- The open callback sets `ACTIVE` unconditionally. A hang-up while the
  microphone request is pending does not cancel the start, so a later open
  makes the call active with no audio context and no capture graph, while
  the microphone stream acquired after the hang-up stays held and the
  session still opens (`StaleOpenAfterHangup`).
- Interruption resets the clock to absolute zero, so the next unit starts
  at the clock's current reading because of the max.

## Model

| member | source | states |
|---|---|---|
| `CallModel.Initial` | App.tsx:12-28 | the page starts idle, with empty history and empty buffers, no contexts, microphone, capture graph or session, no active or stopped sources, and the clock at zero |
| `Types.Fragment` | App.tsx:128-130 | a delta with text contributes that text; a delta without one contributes the word "undefined", as `prev + undefined` does |
| `CallModel.MicGranted` | App.tsx:79-80 | the microphone stream is held; nothing else changes |
| `CallModel.SessionResolved` | App.tsx:191 | the session handle is held; nothing else changes |
| `CallModel.StartCall` | App.tsx:64-77 | a start request is a no-op unless idle; otherwise the status is connecting, history and both buffers are empty, the closure snapshots the old buffers, and both contexts are held; playback and session are untouched |
| `CallModel.StopAudio` | App.tsx:30-47 | afterwards no context, microphone or capture graph is held, nothing is active, the clock is zero, every previously active source was told to stop, and transcript and status are untouched |
| `CallModel.StartFailed` | App.tsx:193-197 | a failed start ends idle with every audio resource released and the transcript kept |
| `CallModel.OnOpen` | App.tsx:97-124 | open makes the call active; the capture graph is built exactly when the input context and microphone are still held; nothing else changes |
| `CallModel.Hangup` | App.tsx:49-62 | hang-up always ends idle with no session, every audio resource released and the clock at zero, keeping history and buffers, whether the close call resolves or rejects; also run by the session's error and close callbacks (App.tsx:180-187) |
| `CallModel.Transcribe` | App.tsx:126-131 | an output delta is concatenated onto the agent's buffer only; without one, an input delta is concatenated onto the person's buffer only; no message extends both; nothing else changes |
| `CallModel.CompleteTurn` | App.tsx:133-141 | on turn completion the history keeps its old entries and gains exactly a user entry then a model entry carrying the closure's snapshot texts, and both buffers are empty; otherwise nothing changes |
| `CallModel.StartTime` | App.tsx:147 | a unit starts at the later of the queued end and the current clock, never before either |
| `CallModel.Scheduled` | App.tsx:144-164 | a start time is given exactly when the message has audio and the output context is held, and it is the max of the queued end and the clock |
| `CallModel.ScheduleAudio` | App.tsx:143-167 | a scheduled unit moves the clock to its start plus its length and adds its source to the active set; the clock never decreases; without audio or context nothing changes |
| `CallModel.Interrupt` | App.tsx:169-178 | on interruption every active source is stopped, the set is empty, the clock is zero and the agent's buffer is empty; nothing else changes |
| `CallModel.OnMessage` | App.tsx:125-179 | a message changes only buffers, history, playback; history grows by the two snapshot entries exactly on turn completion; after an interruption nothing is active and the clock is zero; without one the clock does not decrease and only the new source joins |
| `CallModel.OnEnded` | App.tsx:160-162 | a source's end removes exactly that source from the active set and changes nothing else |
| `CallProperties.StepKeepsInv` | App.tsx:30-178 | every event keeps the history paired (user, model) with snapshot texts, and keeps an engine without output context silent with its clock at zero |
| `CallProperties.RunKeepsInv` | App.tsx:64-198 | that invariant holds after any run of events from a state satisfying it |
| `CallProperties.HistoryIsSnapshot` | App.tsx:133-141 | in every state the model reaches (one snapshot, taken by the latest start) the history alternates user and model entries and each text is the closure's snapshot, never the live buffer |
| `CallProperties.NoContextIsQuiet` | App.tsx:143-178 | in every state the model reaches (messages handled atomically), without an output context nothing is active and the clock is zero |
| `CallProperties.StepHistory` | App.tsx:133-141 | any event but a start request keeps the old history as a prefix and adds two entries exactly on turn completion |
| `CallProperties.HistoryAppendOnly` | App.tsx:133-141 | over any run without a start request the old history stays a prefix and grows by exactly two entries per completed turn |
| `CallProperties.CalmStep` | App.tsx:143-166 | an event that neither ends the call nor interrupts keeps the output context, moves the clock to the end of the unit it schedules or leaves it, and adds only that unit's source |
| `CallProperties.Follows` | App.tsx:147 | a queued unit starts no earlier than the previous end, and exactly there if and only if its message arrived by then |
| `CallProperties.PrependBackToBack` | App.tsx:147-165 | a unit followed by a back-to-back queue scheduled from its end is back-to-back |
| `CallProperties.GaplessClock` | App.tsx:144-166 | over any run without start, failure, hang-up or barge-in (transcripts, turns, opens, ended events in between), the first unit starts at the max, the clock never decreases and ends at the last unit's end, and the output context is unchanged |
| `CallProperties.GaplessPlayback` | App.tsx:144-166 | over any such run consecutive units never overlap, and touch exactly when the later unit's message arrived before the earlier unit ended |
| `CallProperties.GaplessSources` | App.tsx:160-166 | over any such run without ended events every scheduled source, and no other, joins the active set |
| `CallProperties.InterruptThenPlay` | App.tsx:170-178 | after a barge-in history and the person's buffer are unchanged, nothing is active, the agent's buffer is empty, and the next unit starts at the clock reading when its message arrives |
| `CallProperties.TeardownIdempotent` | App.tsx:30-62 | hanging up twice, or stopping audio twice, leaves the same state as doing it once |
| `CallProperties.StatusTransitions` | App.tsx:49-124 | only start, open, failed start and hang-up change the status; start goes only from idle to connecting, open always gives active, failure and hang-up always give idle |
| `CallProperties.StaleOpenAfterHangup` | App.tsx:79-102 | start, hang-up, microphone grant, session resolved, open leaves the call active with no context and no capture graph, but with the microphone stream acquired after the hang-up held (leaked until the next teardown) and a session handle stored |
| `App.CallEngine.constructor` | App.tsx:12-28 | a new engine is in the initial state |
| `App.CallEngine.StopSources` | App.tsx:36-39 | every active source is told to stop, one by one, and the set ends empty |
| `App.CallEngine.StopAudio` | App.tsx:30-47 | leaves the state `CallModel.StopAudio` gives |
| `App.CallEngine.Hangup` | App.tsx:49-62 | leaves the state `CallModel.Hangup` gives: idle, no session, nothing playing, clock zero, history kept |
| `App.CallEngine.StartCall` | App.tsx:64-77 | leaves the state `CallModel.StartCall` gives, and changes nothing unless idle |
| `App.CallEngine.MicGranted` | App.tsx:79-80 | the microphone stream is held; nothing else changes |
| `App.CallEngine.SessionResolved` | App.tsx:191 | the session handle is held; nothing else changes |
| `App.CallEngine.StartFailed` | App.tsx:193-197 | leaves the state `CallModel.StartFailed` gives: idle, nothing playing, no output context |
| `App.CallEngine.OnOpen` | App.tsx:97-124 | leaves the state `CallModel.OnOpen` gives: active, capture built only when its resources are held |
| `App.CallEngine.HandleTranscription` | App.tsx:126-131 | leaves the state `CallModel.Transcribe` gives |
| `App.CallEngine.HandleTurnComplete` | App.tsx:133-141 | leaves the state `CallModel.CompleteTurn` gives |
| `App.CallEngine.HandleAudio` | App.tsx:143-167 | returns the start handed to the source, as `CallModel.Scheduled` gives, and leaves the state `CallModel.ScheduleAudio` gives |
| `App.CallEngine.HandleInterruption` | App.tsx:169-178 | leaves the state `CallModel.Interrupt` gives |
| `App.CallEngine.OnMessage` | App.tsx:125-179 | returns the scheduled start and leaves the state `CallModel.OnMessage` gives |
| `App.CallEngine.OnEnded` | App.tsx:160-162 | removes exactly that source from the active set |

## Left out

- Logging: the `console.log` and `console.error` calls (App.tsx:55, 98, 181, 185, 194) only write diagnostics and change no state, so they are dropped.
- PCM encoding and decoding (`createPcmBlob`, `decode`, `decodeAudioData`) live in `services/audioUtils`, which is not part of this model. A decoded unit is reduced to its length, a non-negative real parameter.
- Outbound audio is not modelled: capture frames, the script processor's callback and `sendRealtimeInput` (App.tsx:101-123). The model keeps only whether the capture graph exists.
- Browser and SDK plumbing are not modelled: creating `AudioContext`s, `getUserMedia`, the analyser, `GoogleGenAI` and the `connect` configuration with its system instruction. These calls are foreign code. Their outcomes become events: microphone granted, session resolved, start failed.
- The audio handler waits for decoding between the max (App.tsx:147) and `start` (App.tsx:164), so overlapping decodes can interleave. The model handles each message atomically, in arrival order, and its start time is decided by the clock reading at arrival, as the code does. The atomic handling also reorders text stages: an audio message's interruption stage (App.tsx:177) runs after the decode, so it can run after a later message's transcript stage and clear the reply text that message added, while in the model that later text survives.
- CallModel.Interrupt: a barge-in handled while another message's decode is pending resets the clock to 0 (App.tsx:175). The pending unit then starts at 0, which means immediately, and joins the emptied set, so barge-in does not silence audio whose decode was in flight. The model does not capture this.
- CallProperties.NoContextIsQuiet: a hang-up handled while a decode is pending leaves, once the decode finishes, a source in the active set and the clock at that unit's length with no output context (App.tsx:164-166). The model cannot reach that state, so the lemma holds only for atomically handled messages.
- CallModel.OnMessage: a rejected decode leaves the clock raised to the max and skips that message's interruption stage. A model turn without `parts` makes App.tsx:144 throw, which skips the audio and interruption stages. The model handles neither failure.
- CallProperties.HistoryIsSnapshot: every start has its own closure (App.tsx:64, 136-137, 198), but the model keeps one snapshot pair, taken by the latest start. A start abandoned by a hang-up during its microphone request can still open and deliver messages. Its turns record its own older snapshot, which the model replaces by the latest one. The lemma holds only for the model's single snapshot.
- CallModel.CompleteTurn: records the latest start's snapshot. For messages from an abandoned earlier start, as above, the source records that start's own snapshot instead.
- `CallModel.Hangup`: the wait on `close()` (App.tsx:53) is not a separate step, so `DISCONNECTING` is set and left within one step and is never observed. A second hang-up started by the close callback during that wait is not modelled either. The teardown waits for `close()` to settle; the model assumes it does, so a close that never settles (the call stuck in `DISCONNECTING`, the hang-up button disabled at App.tsx:253, every resource held and messages still scheduling audio) is not represented.
- `Date.now()` readings, the output clock, decoded lengths and source ids are parameters. Clock values are exact reals, not IEEE doubles. The model does not require source ids to be fresh.
- The selected language appears only in the system instruction, so it is not modelled.
- Rendering is not modelled: the JSX in App.tsx:200-291, `TranscriptionPanel`, `LanguageSelector`, and the canvas drawing in `AudioVisualizer`.
- `constants.ts` holds only static data.
