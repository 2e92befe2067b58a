/** The quiz session as values: the `gameState` record of backend/server.js:23-41,
    the countdown handle of line 44 reduced to a running flag, the events the
    server emits, and one step function per operation. Each step function is the
    state change a handler makes, shared by its REST and its socket form. */
module Quiz {
  import opened Wrappers
  import opened Registry

  /** Seconds a question stays open (backend/server.js:125, 140). */
  const TimeLimit: int := 20
  /** Points for a correct answer (backend/server.js:173). */
  const Points: int := 100

  /** A record of the question bank; `explanation` is "" where the bank has none. */
  datatype Question = Question(question: string, options: seq<string>, correctAnswer: int, explanation: string)

  /** One team slot (backend/server.js:27-36); `answer` is the submitted choice, or null. */
  datatype Team = Team(name: string, score: int, answer: Option<int>, connected: bool)

  const EmptyTeam: Team := Team("", 0, None, false)

  /** The server's `gameState` record. */
  datatype GameState = GameState(
    currentQuestion: Option<Question>,
    questionIndex: int,
    teams: map<SlotId, Team>,
    questionActive: bool,
    answersRevealed: bool,
    timeRemaining: int)

  /** The game state together with whether the countdown interval is scheduled. */
  datatype Session = Session(game: GameState, timerRunning: bool)

  /** Who receives an emitted event: every socket, the `quizmaster` room, or the calling socket. */
  datatype Audience = Everyone | Quizmaster | Caller

  datatype Message =
    | NewQuestion(question: string, options: seq<string>, questionNumber: int, totalQuestions: int, timeLimit: int)
    | TimerUpdate(timeRemaining: int)
    | TimeUp
    | AnswersRevealed(correctAnswer: int, teams: map<SlotId, Team>, explanation: string)
    | GameStateSnapshot(state: GameState)
    | GameReset
    | TeamJoined(teamId: SlotId, teamName: string)
    | AnswerSubmitted
    | TeamUrls(tokens: map<SlotId, Token>)
    | Error(message: string)

  datatype Emit = Emit(to: Audience, msg: Message)

  /** The session after an operation and the events it emitted, in order. */
  datatype Step = Step(after: Session, emitted: seq<Emit>)

  function InitialTeams(): map<SlotId, Team>
  {
    map id | id in SlotSet :: EmptyTeam
  }

  /** The state at process start (backend/server.js:23-41, 44). */
  const Initial: Session :=
    Session(GameState(None, -1, InitialTeams(), false, false, TimeLimit), false)

  function ClearAnswers(teams: map<SlotId, Team>): map<SlotId, Team>
  {
    map id | id in teams :: teams[id].(answer := None)
  }

  function Award(t: Team, correct: int): Team
  {
    if t.answer == Some(correct) then t.(score := t.score + Points) else t
  }

  function AwardAll(teams: map<SlotId, Team>, correct: int): map<SlotId, Team>
  {
    map id | id in teams :: Award(teams[id], correct)
  }

  function EmptyAll(teams: map<SlotId, Team>): map<SlotId, Team>
  {
    map id | id in teams :: teams[id].(name := "", score := 0, answer := None, connected := false)
  }

  /** start-question (backend/server.js:117-158, 250-292): an index outside the bank
      changes nothing; otherwise the question is loaded, every answer cleared and a
      fresh countdown replaces any running one. */
  function StartStep(s: Session, questions: seq<Question>, index: int): Step
  {
    if 0 <= index < |questions| then
      var q := questions[index];
      var g := s.game.(questionIndex := index, currentQuestion := Some(q), questionActive := true,
                       answersRevealed := false, timeRemaining := TimeLimit,
                       teams := ClearAnswers(s.game.teams));
      Step(Session(g, true),
           [Emit(Everyone, NewQuestion(q.question, q.options, index + 1, |questions|, TimeLimit))])
    else
      Step(s, [])
  }

  /** One firing of the countdown interval (backend/server.js:143-152, 278-288). */
  function TickStep(s: Session): Step
  {
    if !s.timerRunning then Step(s, [])
    else
      var t := s.game.timeRemaining - 1;
      if t <= 0 then
        Step(Session(s.game.(timeRemaining := t, questionActive := false), false),
             [Emit(Everyone, TimerUpdate(t)), Emit(Everyone, TimeUp)])
      else
        Step(Session(s.game.(timeRemaining := t), true), [Emit(Everyone, TimerUpdate(t))])
  }

  /** submit-answer (backend/server.js:295-307): the slot named in the payload is
      trusted; only an open question and an existing slot key are checked. */
  function SubmitStep(s: Session, teamId: SlotId, answer: Option<int>): Step
  {
    if s.game.questionActive && teamId in s.game.teams then
      var g := s.game.(teams := s.game.teams[teamId := s.game.teams[teamId].(answer := answer)]);
      Step(Session(g, s.timerRunning), [Emit(Quizmaster, GameStateSnapshot(g)), Emit(Caller, AnswerSubmitted)])
    else
      Step(s, [])
  }

  /** reveal-answers (backend/server.js:160-189, 310-340): guarded only by a current
      question, so every call awards again. */
  function RevealStep(s: Session): Step
  {
    if s.game.currentQuestion.Some? then
      var q := s.game.currentQuestion.value;
      var g := s.game.(answersRevealed := true, questionActive := false,
                       teams := AwardAll(s.game.teams, q.correctAnswer));
      Step(Session(g, false),
           [Emit(Everyone, AnswersRevealed(q.correctAnswer, g.teams, q.explanation)),
            Emit(Quizmaster, GameStateSnapshot(g))])
    else
      Step(s, [])
  }

  /** reset-game (backend/server.js:191-213, 343-366): always applies. */
  function ResetStep(s: Session): Step
  {
    var g := GameState(None, -1, EmptyAll(s.game.teams), false, false, TimeLimit);
    Step(Session(g, false), [Emit(Everyone, GameReset), Emit(Quizmaster, GameStateSnapshot(g))])
  }

  /** join-team (backend/server.js:228-247). */
  function JoinStep(s: Session, tokens: map<SlotId, Token>, token: Token, teamName: string): Step
  {
    match SlotOfToken(tokens, token)
    case Some(id) =>
      if id in s.game.teams then
        var g := s.game.(teams := s.game.teams[id := s.game.teams[id].(name := teamName, connected := true)]);
        Step(Session(g, s.timerRunning),
             [Emit(Caller, TeamJoined(id, teamName)), Emit(Caller, GameStateSnapshot(g)),
              Emit(Quizmaster, GameStateSnapshot(g))])
      else
        Step(s, [Emit(Caller, Error("Invalid team token"))])
    case None =>
      Step(s, [Emit(Caller, Error("Invalid team token"))])
  }

  /** join-quizmaster (backend/server.js:220-225): sends state and tokens to the caller only. */
  function JoinQuizmasterStep(s: Session, tokens: map<SlotId, Token>): Step
  {
    Step(s, [Emit(Caller, GameStateSnapshot(s.game)), Emit(Caller, TeamUrls(tokens))])
  }

  /** Everything that can happen to the session, one event at a time. */
  datatype Command =
    | Start(index: int)
    | Tick
    | Submit(teamId: SlotId, answer: Option<int>)
    | Reveal
    | Reset
    | Join(token: Token, teamName: string)
    | JoinQuizmaster
    | Disconnect

  function Apply(s: Session, questions: seq<Question>, tokens: map<SlotId, Token>, c: Command): Step
  {
    match c
    case Start(i) => StartStep(s, questions, i)
    case Tick => TickStep(s)
    case Submit(id, a) => SubmitStep(s, id, a)
    case Reveal => RevealStep(s)
    case Reset => ResetStep(s)
    case Join(token, name) => JoinStep(s, tokens, token, name)
    case JoinQuizmaster => JoinQuizmasterStep(s, tokens)
    case Disconnect => Step(s, [])
  }

  /** The commands run in order; the emitted events are concatenated. */
  function Run(s: Session, questions: seq<Question>, tokens: map<SlotId, Token>, cs: seq<Command>): Step
    decreases |cs|
  {
    if cs == [] then Step(s, [])
    else
      var first := Apply(s, questions, tokens, cs[0]);
      var rest := Run(first.after, questions, tokens, cs[1..]);
      Step(rest.after, first.emitted + rest.emitted)
  }

  /** `n` firings of the countdown with nothing else in between. The bank and the
      token table passed to Run are empty because a tick reads neither. */
  function Ticks(s: Session, n: nat): Step
  {
    Run(s, [], map[], seq(n, _ => Tick))
  }

  predicate ScoreOk(score: int)
  {
    score >= 0 && score % Points == 0
  }

  /** The invariants every operation keeps. */
  ghost predicate Inv(s: Session, questions: seq<Question>)
  {
    var g := s.game;
    && g.teams.Keys == SlotSet
    && (g.currentQuestion.None? ==> g.questionIndex == -1)
    && (g.currentQuestion.Some? ==>
          0 <= g.questionIndex < |questions| && g.currentQuestion.value == questions[g.questionIndex])
    && (g.questionActive ==> g.currentQuestion.Some?)
    && (g.answersRevealed ==> g.currentQuestion.Some? && !g.questionActive)
    && s.timerRunning == g.questionActive
    && 0 <= g.timeRemaining <= TimeLimit
    && (s.timerRunning ==> 0 < g.timeRemaining)
    && forall id :: id in g.teams ==> ScoreOk(g.teams[id].score)
  }

  /** The lifecycle phases of a question. */
  datatype Phase = Idle | Accepting | Closed | Revealed

  function PhaseOf(g: GameState): Phase
  {
    if g.currentQuestion.None? then Idle
    else if g.questionActive then Accepting
    else if g.answersRevealed then Revealed
    else Closed
  }
}
