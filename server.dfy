/** The quiz server's module-level state (backend/server.js:23-58) as one object
    whose handlers update its fields in place. Each method is one handler, shared
    by the REST and the socket form of an operation, and is proved to make exactly
    the state change and emit exactly the events of its step function in Quiz. */
module Server {
  import opened Wrappers
  import opened Registry
  import opened Quiz
  import QuizProps

  class QuizServer {
    /** The question bank, loaded once. */
    const questions: seq<Question>
    /** `teamTokens`: assigned once, never modified. */
    const teamTokens: map<SlotId, Token>

    var currentQuestion: Option<Question>
    var questionIndex: int
    var teams: map<SlotId, Team>
    var questionActive: bool
    var answersRevealed: bool
    var timeRemaining: int
    /** `questionTimer` holds an interval that has not been cleared. */
    var timerRunning: bool
    /** Every event emitted so far, in order. */
    ghost var events: seq<Emit>

    function Game(): GameState
      reads this
    {
      GameState(currentQuestion, questionIndex, teams, questionActive, answersRevealed, timeRemaining)
    }

    function Current(): Session
      reads this
    {
      Session(Game(), timerRunning)
    }

    ghost predicate Valid()
      reads this
    {
      Inv(Current(), questions)
    }

    constructor (questions: seq<Question>, tokens: map<SlotId, Token>)
      requires TokensIssued(tokens)
      ensures Valid()
      ensures this.questions == questions && teamTokens == tokens && TokensIssued(teamTokens)
      ensures Current() == Initial && events == []
    {
      this.questions := questions;
      teamTokens := tokens;
      currentQuestion := None;
      questionIndex := -1;
      teams := InitialTeams();
      questionActive := false;
      answersRevealed := false;
      timeRemaining := TimeLimit;
      timerRunning := false;
      events := [];
      new;
      QuizProps.InitialInv(questions);
    }

    /** The pass over every slot that clears its answer (backend/server.js:131-133, 264-266). */
    method ClearAllAnswers(keys: seq<SlotId>)
      requires Enumerates(keys, teams.Keys)
      modifies this`teams
      ensures teams == ClearAnswers(old(teams))
    {
      for n := 0 to |keys|
        invariant teams.Keys == old(teams).Keys
        invariant forall id :: id in teams ==>
                    teams[id] == if id in keys[..n] then old(teams)[id].(answer := None) else old(teams)[id]
      {
        var id := keys[n];
        assert id !in keys[..n];
        teams := teams[id := teams[id].(answer := None)];
      }
      assert keys[..|keys|] == keys;
    }

    /** The scoring pass over every slot (backend/server.js:171-175, 323-327). */
    method AwardCorrect(keys: seq<SlotId>, correct: int)
      requires Enumerates(keys, teams.Keys)
      modifies this`teams
      ensures teams == AwardAll(old(teams), correct)
    {
      for n := 0 to |keys|
        invariant teams.Keys == old(teams).Keys
        invariant forall id :: id in teams ==>
                    teams[id] == if id in keys[..n] then Award(old(teams)[id], correct) else old(teams)[id]
      {
        var id := keys[n];
        assert id !in keys[..n];
        if teams[id].answer == Some(correct) {
          teams := teams[id := teams[id].(score := teams[id].score + Points)];
        }
      }
      assert keys[..|keys|] == keys;
    }

    /** The pass over every slot that empties it (backend/server.js:202-207, 355-360). */
    method EmptyAllSlots(keys: seq<SlotId>)
      requires Enumerates(keys, teams.Keys)
      modifies this`teams
      ensures teams == EmptyAll(old(teams))
    {
      for n := 0 to |keys|
        invariant teams.Keys == old(teams).Keys
        invariant forall id :: id in teams ==>
                    teams[id] == if id in keys[..n]
                                 then old(teams)[id].(name := "", score := 0, answer := None, connected := false)
                                 else old(teams)[id]
      {
        var id := keys[n];
        assert id !in keys[..n];
        teams := teams[id := teams[id].(name := "", score := 0, answer := None, connected := false)];
      }
      assert keys[..|keys|] == keys;
    }

    /** start-question; `ok` is the REST reply's `success` (400 when false). */
    method StartQuestion(index: int) returns (ok: bool)
      requires Valid()
      modifies this
      ensures Valid()
      ensures ok == (0 <= index < |questions|)
      ensures Current() == StartStep(old(Current()), questions, index).after
      ensures events == old(events) + StartStep(old(Current()), questions, index).emitted
    {
      ghost var before := Current();
      if 0 <= index < |questions| {
        questionIndex := index;
        currentQuestion := Some(questions[index]);
        questionActive := true;
        answersRevealed := false;
        timeRemaining := TimeLimit;
        timerRunning := false;
        SlotIdsEnumerate();
        ClearAllAnswers(SlotIds);
        var q := questions[index];
        events := events + [Emit(Everyone, NewQuestion(q.question, q.options, index + 1, |questions|, TimeLimit))];
        timerRunning := true;
        ok := true;
      } else {
        ok := false;
      }
      QuizProps.StartPreservesInv(before, questions, index);
    }

    /** One firing of the countdown interval; a cleared interval never fires. */
    method Tick()
      requires Valid()
      modifies this
      ensures Valid()
      ensures Current() == TickStep(old(Current())).after
      ensures events == old(events) + TickStep(old(Current())).emitted
    {
      ghost var before := Current();
      if timerRunning {
        timeRemaining := timeRemaining - 1;
        events := events + [Emit(Everyone, TimerUpdate(timeRemaining))];
        if timeRemaining <= 0 {
          timerRunning := false;
          questionActive := false;
          events := events + [Emit(Everyone, TimeUp)];
        }
      }
      QuizProps.TickPreservesInv(before, questions);
    }

    /** submit-answer, with the slot key taken from the payload. */
    method SubmitAnswer(teamId: SlotId, answer: Option<int>)
      requires Valid()
      modifies this
      ensures Valid()
      ensures Current() == SubmitStep(old(Current()), teamId, answer).after
      ensures events == old(events) + SubmitStep(old(Current()), teamId, answer).emitted
    {
      ghost var before := Current();
      if questionActive && teamId in teams {
        teams := teams[teamId := teams[teamId].(answer := answer)];
        events := events + [Emit(Quizmaster, GameStateSnapshot(Game())), Emit(Caller, AnswerSubmitted)];
      }
      QuizProps.SubmitPreservesInv(before, questions, teamId, answer);
    }

    /** reveal-answers; `ok` is the REST reply's `success` (400 when false). */
    method RevealAnswers() returns (ok: bool)
      requires Valid()
      modifies this
      ensures Valid()
      ensures ok == old(currentQuestion).Some?
      ensures Current() == RevealStep(old(Current())).after
      ensures events == old(events) + RevealStep(old(Current())).emitted
    {
      ghost var before := Current();
      if currentQuestion.Some? {
        timerRunning := false;
        answersRevealed := true;
        questionActive := false;
        var correct := currentQuestion.value.correctAnswer;
        SlotIdsEnumerate();
        AwardCorrect(SlotIds, correct);
        events := events + [Emit(Everyone, AnswersRevealed(correct, teams, currentQuestion.value.explanation)),
                            Emit(Quizmaster, GameStateSnapshot(Game()))];
        ok := true;
      } else {
        ok := false;
      }
      QuizProps.RevealPreservesInv(before, questions);
    }

    /** reset-game. */
    method ResetGame()
      requires Valid()
      modifies this
      ensures Valid()
      ensures Current() == ResetStep(old(Current())).after
      ensures events == old(events) + ResetStep(old(Current())).emitted
      ensures Current() == Initial
    {
      ghost var before := Current();
      timerRunning := false;
      currentQuestion := None;
      questionIndex := -1;
      questionActive := false;
      answersRevealed := false;
      timeRemaining := TimeLimit;
      SlotIdsEnumerate();
      EmptyAllSlots(SlotIds);
      events := events + [Emit(Everyone, GameReset), Emit(Quizmaster, GameStateSnapshot(Game()))];
      QuizProps.ResetRestoresInitial(before);
      QuizProps.InitialInv(questions);
    }

    /** join-team with a token and a display name. */
    method JoinTeam(token: Token, teamName: string)
      requires Valid()
      modifies this
      ensures Valid()
      ensures Current() == JoinStep(old(Current()), teamTokens, token, teamName).after
      ensures events == old(events) + JoinStep(old(Current()), teamTokens, token, teamName).emitted
    {
      ghost var before := Current();
      var slot := SlotOfToken(teamTokens, token);
      if slot.Some? && slot.value in teams {
        var id := slot.value;
        teams := teams[id := teams[id].(name := teamName, connected := true)];
        events := events + [Emit(Caller, TeamJoined(id, teamName)), Emit(Caller, GameStateSnapshot(Game())),
                            Emit(Quizmaster, GameStateSnapshot(Game()))];
      } else {
        events := events + [Emit(Caller, Error("Invalid team token"))];
      }
      QuizProps.JoinPreservesInv(before, questions, teamTokens, token, teamName);
      assert JoinStep(before, teamTokens, token, teamName) == Step(Current(), events[|old(events)|..]);
    }

    /** join-quizmaster: a snapshot and the token table go to the caller; no state changes. */
    method JoinQuizmaster()
      requires Valid()
      modifies this`events
      ensures Valid()
      ensures Current() == old(Current())
      ensures events == old(events) + JoinQuizmasterStep(old(Current()), teamTokens).emitted
    {
      events := events + [Emit(Caller, GameStateSnapshot(Game())), Emit(Caller, TeamUrls(teamTokens))];
    }

    /** disconnect: the handler only logs, so the slot stays marked connected. */
    method Disconnect()
      requires Valid()
      ensures Valid()
      ensures Current() == old(Current()) && events == old(events)
    {
    }
  }
}
