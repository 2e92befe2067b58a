# Christmas quiz server: session state machine in Dafny

This project models the authoritative game session of the quiz backend
(`backend/server.js`). A quizmaster starts questions, a twenty-second countdown
runs, up to ten team slots submit answers, the quizmaster reveals the answers and
scores are awarded, and the game can be reset. Teams join a slot with a secret
per-slot token.

Layout:

- `wrappers.dfy` (module `Wrappers`): `Option`, for JavaScript's `null`.
- `registry.dfy` (module `Registry`): the ten slot keys `team1`..`team10`, the token
  table and the token lookup done by `join-team`.
- `quiz.dfy` (module `Quiz`): the `gameState` record, the countdown reduced to a
  running flag, the emitted events, and one step function per operation
  (`StartStep`, `TickStep`, `SubmitStep`, `RevealStep`, `ResetStep`, `JoinStep`,
  `JoinQuizmasterStep`). Every operation is defined once, although the source writes
  most of them twice, as a REST handler and as a socket handler. Also here: the
  invariant `Inv`, the question phases, and `Run`, which applies a list of commands.
- `quiz_props.dfy` (module `QuizProps`): the properties of each operation, the
  countdown, invariant preservation over any run, and the phase diagram.
- `server.dfy` (module `Server`): class `QuizServer`. It holds the module-level
  state as fields and has one method per handler. The methods update the fields in
  place, with a loop over the slots where the source uses `forEach`. Each method is
  proved to produce exactly the new state and the events of its step function.
  Each also keeps `Valid()`.
- `payload.dfy` (module `Payload`): the slot check of `submit-answer` as JavaScript
  evaluates it (see Findings).

The timer is modelled as state. `timerRunning` is true while `questionTimer` holds an
interval that has not been cleared. `Tick` is one firing of that interval. Emitted
events are kept in a ghost log `events` of `Emit(audience, message)` values. The
audience is every socket, the `quizmaster` room, or the calling socket.

The model follows the code in these points, where a reader might expect otherwise:

- Reveal is not idempotent. Its only guard is a current question, so each call awards
  again (`QuizProps.RevealTwiceAwardsTwice`).
- `submit-answer` does not require the slot to be joined. It trusts the slot key in the
  payload and checks only that the question is open and the key exists.
- A disconnect changes no state. The slot stays marked `connected`.
- A stray tick cannot reach a later question because `clearInterval` runs before a new
  interval starts. There is no generation counter. The single `timerRunning` flag, kept
  equal to `questionActive`, captures this.

## Model

| member | source | states |
|---|---|---|
| Registry.SlotIdsEnumerate | backend/server.js:26-37 | the key order lists each of the ten slots exactly once, so one pass visits every slot once |
| Registry.FindFrom | backend/server.js:229 | the result is the first position whose key holds the token; none means no key holds it |
| Registry.SlotOfIssuedToken | backend/server.js:47-58 | with distinct issued tokens, a slot's own token resolves to exactly that slot |
| Registry.SlotOfTokenSound | backend/server.js:229-231 | the lookup finds nothing iff no slot holds the token; a found slot is one of the ten and holds the token |
| Server.QuizServer.constructor | backend/server.js:23-58 | the server starts in the initial state (no question, index -1, inactive, 20 seconds, empty slots, timer stopped) with the issued tokens and an empty event log |
| Server.QuizServer.ClearAllAnswers | backend/server.js:131-133 | the pass over the slot keys, in key order, sets every answer to null and changes nothing else |
| Server.QuizServer.AwardCorrect | backend/server.js:171-175 | the pass over the slots adds 100 to exactly the slots whose answer equals the correct index |
| Server.QuizServer.EmptyAllSlots | backend/server.js:202-207 | the pass over the slots empties every name, score, answer and connected flag |
| Server.QuizServer.StartQuestion | backend/server.js:117-158 | REST and socket (250-292) start: success iff the index is in the bank; the new state and events are those of StartStep; invariants kept |
| Server.QuizServer.Tick | backend/server.js:143-152 | one interval firing (also 278-288) produces TickStep's state and events; invariants kept |
| Server.QuizServer.SubmitAnswer | backend/server.js:295-307 | the new state and events are SubmitStep's, which accepts only an own slot key (see Left out); invariants kept |
| Server.QuizServer.RevealAnswers | backend/server.js:160-189 | REST and socket (310-340) reveal: success iff there is a current question; state and events are RevealStep's; invariants kept |
| Server.QuizServer.ResetGame | backend/server.js:191-213 | REST and socket (343-366) reset: state and events are ResetStep's, and the state equals the initial state |
| Server.QuizServer.JoinTeam | backend/server.js:228-247 | the new state and events are JoinStep's; invariants kept |
| Server.QuizServer.JoinQuizmaster | backend/server.js:220-225 | no state change; the caller receives a snapshot and the token table |
| Server.QuizServer.Disconnect | backend/server.js:368-370 | no state change and no event |
| QuizProps.StartInRange | backend/server.js:120-141 | an in-range start sets index, current question, active, not revealed, 20 seconds and a running timer, clears every answer, keeps names, scores and connected flags, and emits one new-question |
| QuizProps.StartOutOfRange | backend/server.js:155-157 | an out-of-range start leaves state and timer unchanged and emits nothing |
| QuizProps.TickRunning | backend/server.js:143-152 | a running tick decrements by exactly 1, stops the timer and closes the question iff the result is <= 0, changes nothing else, and emits timer-update then time-up only at expiry |
| QuizProps.TickStopped | backend/server.js:148 | a cleared interval does nothing |
| QuizProps.TicksStopped | backend/server.js:148 | any number of firings after the timer stopped changes nothing |
| QuizProps.CountdownRunsOut | backend/server.js:143-152 | from t seconds, n >= t firings emit timer-updates t-1..0 and then time-up exactly once, leaving the question closed at 0 with nothing else changed |
| QuizProps.StartThenExpire | backend/server.js:125-152 | after a start and 20 firings the question is inactive, and time-up was emitted once, last, right after a timer-update carrying 0 |
| QuizProps.SubmitAccepted | backend/server.js:295-297 | while active, an existing slot key gets the answer in that slot only, whether or not the slot is connected |
| QuizProps.SubmitRejected | backend/server.js:296 | when inactive or the key is not an own slot key, nothing changes and nothing is emitted (inherited keys: see Left out) |
| QuizProps.SubmitOverwrites | backend/server.js:297 | a later submission for the same slot replaces the earlier one |
| QuizProps.RevealScores | backend/server.js:160-175 | reveal sets revealed, clears active, stops the timer, keeps timeRemaining, and raises each score by exactly 100 iff its answer equals the correct index, changing nothing else of a slot |
| QuizProps.RevealWithoutQuestion | backend/server.js:186-188 | with no current question reveal changes nothing and emits nothing |
| QuizProps.RevealTwiceAwardsTwice | backend/server.js:161-175 | two reveals award a correct slot 200 in total: reveal is not idempotent |
| QuizProps.ResetRestoresInitial | backend/server.js:191-210 | reset yields exactly the initial state and emits game-reset then a snapshot to the quizmaster |
| QuizProps.JoinKnownToken | backend/server.js:228-237 | a slot's own token sets only that slot's name and connected flag and confirms the join to the caller |
| QuizProps.JoinUnknownToken | backend/server.js:244-246 | an unknown token changes nothing and sends the caller the error "Invalid team token" |
| QuizProps.InitialInv | backend/server.js:23-44 | the initial state satisfies the invariants |
| QuizProps.AwardAllKeepsScores | backend/server.js:171-175 | scoring keeps every score a non-negative multiple of 100 and never lowers one |
| QuizProps.StartPreservesInv | backend/server.js:120-133 | start keeps the invariants |
| QuizProps.TickPreservesInv | backend/server.js:143-152 | a tick keeps the invariants, in particular 0 <= timeRemaining <= 20 |
| QuizProps.SubmitPreservesInv | backend/server.js:295-297 | submit keeps the invariants |
| QuizProps.RevealPreservesInv | backend/server.js:160-175 | reveal keeps the invariants, in particular scores stay non-negative multiples of 100 |
| QuizProps.ResetPreservesInv | backend/server.js:191-207 | reset keeps the invariants |
| QuizProps.JoinPreservesInv | backend/server.js:228-235 | join keeps the invariants |
| QuizProps.ApplyPreservesInv | backend/server.js:117-370 | every operation keeps: ten fixed slot keys, revealed implies inactive, active implies a loaded question in range, timer running iff active, 0 <= timeRemaining <= 20, scores non-negative multiples of 100 |
| QuizProps.RunPreservesInv | backend/server.js:23-370 | every state reachable by any sequence of operations satisfies the invariants |
| QuizProps.ScoresNeverDecrease | backend/server.js:171-175 | no operation other than reset lowers a score |
| QuizProps.PhaseFollowsDiagram | backend/server.js:117-213 | a start always opens, a tick can only close an open question, reveal from any loaded phase reveals, reset returns to idle, and other operations keep the phase |
| QuizProps.ScenarioOneRightOneWrong | backend/server.js:117-175 | start question 0 with correct index 1, team1 answers 1, team2 answers 0, reveal: team1 has 100, team2 has 0, answers revealed |
| Payload.InheritedKeyPassesGuard | backend/server.js:296 | with a question open, the key "constructor" passes the guard as written though it is no slot |
| Payload.AsWrittenAgreesOnSlots | backend/server.js:295-303 | on the ten own slot keys, the handler as written makes exactly SubmitStep's change and events |
| Payload.InheritedKeyConfirmedButUnrecorded | backend/server.js:296-303 | with a question open, the key "constructor" leaves the state unchanged yet emits a snapshot to the quizmaster and answer-submitted to the caller, where SubmitStep emits nothing |
| Payload.SubmitAcceptsOnlySlots | backend/server.js:296-303 | with the intended check, a submission is recorded and confirmed iff the question is open and the key is one of the ten slots; a rejected one changes nothing |

## Left out

- HTTP, Socket.IO and CORS bootstrapping, the homepage, console logging and `listen` (backend/server.js:1-20, 60-92, 373-376) are transport and output only.
- The read-only endpoints `/api/team-urls`, `/api/questions` and `/api/game-state` (backend/server.js:94-115) are left out. They change no state, and building URL strings is not part of the session logic.
- UUID generation (backend/server.js:47-58) is a foreign call. The tokens are a constructor parameter, assumed pairwise distinct (`TokensIssued`).
- Wall-clock timing of `setInterval` is not modelled. A firing is the explicit operation `Tick`, and drift or scheduling order is not captured.
- Room membership and `socket.teamId` (backend/server.js:221, 232-233) belong to the transport. The logic never reads the bound id back.
- Emitted events are an abstract ghost log. The JSON serialisation of payloads and delivery to sockets are not modelled.
- Payload types: the question index is an integer and an answer is an optional integer. JavaScript values of other types are not modelled. These include a numeric string index and the option text the team page sends as its answer. They also include a fractional index. It passes the range check (backend/server.js:120), loads `undefined`, and then the handler throws at line 136. By then lines 121-133 have opened the question, cleared the old interval and cleared every answer, but no new interval starts. The question then stays open with no countdown, which breaks `timerRunning == questionActive`. Reveal answers 400, because `currentQuestion` is `undefined`.
- Payload.SubmitStepAsWritten: models the events and the unchanged `gameState` for an inherited key. It does not model the write of `answer` onto `Object.prototype` or onto the `Object` function.
- Server.QuizServer.SubmitAnswer, QuizProps.SubmitRejected: these use the own-slot-key check `teamId in teams`. The handler as written also admits keys inherited from `Object.prototype`. That path is modelled only in `Payload` (see Findings).
- The frontend components, the MCP tool wrapper and the test files are presentation, a REST client and test code, not session logic.

## Findings

| source | as written | input that shows it | evidently intended | confidence | as-written member | corrected member |
|---|---|---|---|---|---|---|
| backend/server.js:296 | `gameState.teams[teamId]` is a plain-object lookup, so keys inherited from `Object.prototype` are truthy and pass the check | while a question is open, `submit-answer` with `teamId: "constructor"` (or `"__proto__"`): the caller gets `answer-submitted` and no slot records an answer; with `"__proto__"` the write lands on `Object.prototype` | accept only the ten own slot keys | not executed; high (standard JavaScript property lookup) | Payload.InheritedKeyConfirmedButUnrecorded | Payload.SubmitAcceptsOnlySlots |
