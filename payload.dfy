/** The slot check of submit-answer as JavaScript evaluates it
    (backend/server.js:296). `gameState.teams[teamId]` looks the key up on a plain
    object, so a key the object inherits from `Object.prototype` also yields a truthy
    value, and the handler then writes `answer` onto that inherited value and
    confirms the submission to the caller, while no slot records anything. The rest
    of the model uses the intended check, `teamId in teams` (Quiz.SubmitStep). */
module Payload {
  import opened Wrappers
  import opened Registry
  import opened Quiz

  /** Names every plain object inherits from `Object.prototype`; each lookup yields
      a function or the prototype object itself, both truthy. */
  const InheritedNames: set<string> :=
    {"constructor", "__proto__", "toString", "toLocaleString", "valueOf", "hasOwnProperty",
     "isPrototypeOf", "propertyIsEnumerable", "__defineGetter__", "__defineSetter__",
     "__lookupGetter__", "__lookupSetter__"}

  /** The guard as written: an open question and a truthy property lookup. */
  predicate SubmitGuardAsWritten(g: GameState, teamId: string)
  {
    g.questionActive && (teamId in g.teams || teamId in InheritedNames)
  }

  /** With a question open, the payload key "constructor" passes the guard as
      written although it names no slot: the caller is told its answer was
      submitted, and no slot's answer changes. */
  lemma InheritedKeyPassesGuard(g: GameState)
    requires g.questionActive && g.teams.Keys == SlotSet
    ensures SubmitGuardAsWritten(g, "constructor") && "constructor" !in SlotSet
  {
  }

  /** submit-answer as written: an own slot key behaves as in Quiz.SubmitStep; an
      inherited name with a question open records nothing in `gameState` (the write
      lands on the inherited value) yet still sends the quizmaster a snapshot and
      confirms the submission to the caller. */
  function SubmitStepAsWritten(s: Session, teamId: string, answer: Option<int>): Step
  {
    if s.game.questionActive && teamId in s.game.teams then SubmitStep(s, teamId, answer)
    else if SubmitGuardAsWritten(s.game, teamId) then
      Step(s, [Emit(Quizmaster, GameStateSnapshot(s.game)), Emit(Caller, AnswerSubmitted)])
    else Step(s, [])
  }

  /** On the ten own slot keys, the handler as written and the model agree. */
  lemma AsWrittenAgreesOnSlots(s: Session, teamId: SlotId, answer: Option<int>)
    requires s.game.teams.Keys == SlotSet && teamId in SlotSet
    ensures SubmitStepAsWritten(s, teamId, answer) == SubmitStep(s, teamId, answer)
  {
  }

  /** The discrepancy: with a question open, the key "constructor" is confirmed to
      the caller and reported to the quizmaster, while no slot records an answer;
      the intended check rejects it silently. */
  lemma InheritedKeyConfirmedButUnrecorded(s: Session, answer: Option<int>)
    requires s.game.questionActive && s.game.teams.Keys == SlotSet
    ensures SubmitStepAsWritten(s, "constructor", answer) ==
      Step(s, [Emit(Quizmaster, GameStateSnapshot(s.game)), Emit(Caller, AnswerSubmitted)])
    ensures SubmitStep(s, "constructor", answer) == Step(s, [])
  {
    assert "constructor" !in SlotSet;
  }

  /** The intended check: a submission is recorded and confirmed exactly when the
      question is open and the key names one of the ten slots, and then it is
      recorded in that slot. */
  lemma {:induction false} SubmitAcceptsOnlySlots(s: Session, teamId: SlotId, answer: Option<int>)
    requires s.game.teams.Keys == SlotSet
    ensures SubmitStep(s, teamId, answer).emitted != [] <==> s.game.questionActive && teamId in SlotSet
    ensures SubmitStep(s, teamId, answer).emitted != [] ==>
      SubmitStep(s, teamId, answer).after.game.teams[teamId].answer == answer
    ensures SubmitStep(s, teamId, answer).emitted == [] ==> SubmitStep(s, teamId, answer).after == s
  {
  }
}
