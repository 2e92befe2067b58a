/** What the quiz server promises about each operation, proved of the step
    functions in module Quiz. */
module QuizProps {
  import opened Wrappers
  import opened Registry
  import opened Quiz

  // ---------------------------------------------------------------- start-question

  /** An index inside the bank loads that question, clears every answer, opens
      the question with a full countdown and touches nothing else of the slots. */
  lemma StartInRange(s: Session, questions: seq<Question>, index: int)
    requires 0 <= index < |questions|
    ensures var a := StartStep(s, questions, index).after.game;
      && a.questionIndex == index
      && a.currentQuestion == Some(questions[index])
      && a.questionActive && !a.answersRevealed && a.timeRemaining == TimeLimit
      && StartStep(s, questions, index).after.timerRunning
      && a.teams.Keys == s.game.teams.Keys
      && forall id :: id in a.teams ==>
           && a.teams[id].answer == None
           && a.teams[id].name == s.game.teams[id].name
           && a.teams[id].score == s.game.teams[id].score
           && a.teams[id].connected == s.game.teams[id].connected
    ensures StartStep(s, questions, index).emitted ==
      [Emit(Everyone, NewQuestion(questions[index].question, questions[index].options, index + 1, |questions|, TimeLimit))]
  {
  }

  /** An index outside the bank leaves the state and the countdown as they were
      and emits nothing. */
  lemma StartOutOfRange(s: Session, questions: seq<Question>, index: int)
    requires index < 0 || |questions| <= index
    ensures StartStep(s, questions, index) == Step(s, [])
  {
  }

  // ---------------------------------------------------------------- countdown

  /** A firing of a running countdown takes exactly one second off, reports the
      new value, and closes the question exactly when the value reaches zero. */
  lemma TickRunning(s: Session)
    requires s.timerRunning
    ensures var a := TickStep(s).after;
      && a.game.timeRemaining == s.game.timeRemaining - 1
      && a.timerRunning == (a.game.timeRemaining > 0)
      && a.game.questionActive == (s.game.questionActive && a.game.timeRemaining > 0)
      && a.game.(timeRemaining := s.game.timeRemaining, questionActive := s.game.questionActive) == s.game
      && TickStep(s).emitted ==
           [Emit(Everyone, TimerUpdate(a.game.timeRemaining))]
           + (if a.game.timeRemaining <= 0 then [Emit(Everyone, TimeUp)] else [])
  {
  }

  /** A stopped countdown never fires again. */
  lemma TickStopped(s: Session)
    requires !s.timerRunning
    ensures TickStep(s) == Step(s, [])
  {
  }

  lemma TicksUnfold(s: Session, n: nat)
    requires n > 0
    ensures Ticks(s, n) ==
      Step(Ticks(TickStep(s).after, n - 1).after, TickStep(s).emitted + Ticks(TickStep(s).after, n - 1).emitted)
  {
    assert seq(n, _ => Tick)[1..] == seq(n - 1, _ => Tick);
  }

  /** Further firings after the countdown has stopped change nothing. */
  lemma {:induction false} TicksStopped(s: Session, n: nat)
    requires !s.timerRunning
    ensures Ticks(s, n) == Step(s, [])
  {
    if n > 0 {
      TicksUnfold(s, n);
      TicksStopped(s, n - 1);
    }
  }

  /** A running countdown with `t` seconds left, fired `n >= t` times with nothing
      in between, reports t-1, ..., 1, 0, then time-up exactly once, and leaves the
      question closed with zero seconds left and nothing else changed. */
  lemma {:induction false} CountdownRunsOut(s: Session, n: nat)
    requires s.timerRunning && 0 < s.game.timeRemaining <= n
    ensures var t := s.game.timeRemaining; var r := Ticks(s, n);
      && r.after == Session(s.game.(timeRemaining := 0, questionActive := false), false)
      && |r.emitted| == t + 1
      && (forall j :: 0 <= j < t ==> r.emitted[j] == Emit(Everyone, TimerUpdate(t - 1 - j)))
      && r.emitted[t] == Emit(Everyone, TimeUp)
    decreases n
  {
    var t := s.game.timeRemaining;
    TicksUnfold(s, n);
    var s1 := TickStep(s).after;
    if t == 1 {
      TicksStopped(s1, n - 1);
    } else {
      CountdownRunsOut(s1, n - 1);
      var r1 := Ticks(s1, n - 1);
      assert s1.game.timeRemaining == t - 1;
      forall j | 0 <= j < t
        ensures Ticks(s, n).emitted[j] == Emit(Everyone, TimerUpdate(t - 1 - j))
      {
        if j > 0 {
          assert Ticks(s, n).emitted[j] == r1.emitted[j - 1];
        }
      }
    }
  }

  /** Starting a question and then letting the countdown run out: after twenty
      firings the question is closed and time-up has been emitted exactly once,
      last, right after a timer update carrying 0. */
  lemma StartThenExpire(s: Session, questions: seq<Question>, index: int)
    requires 0 <= index < |questions|
    ensures var r := Ticks(StartStep(s, questions, index).after, TimeLimit);
      && !r.after.game.questionActive && !r.after.timerRunning && r.after.game.timeRemaining == 0
      && |r.emitted| == TimeLimit + 1
      && r.emitted[TimeLimit - 1] == Emit(Everyone, TimerUpdate(0))
      && r.emitted[TimeLimit] == Emit(Everyone, TimeUp)
      && forall j :: 0 <= j < TimeLimit ==> r.emitted[j] != Emit(Everyone, TimeUp)
  {
    CountdownRunsOut(StartStep(s, questions, index).after, TimeLimit);
  }

  // ---------------------------------------------------------------- submit-answer

  /** While the question is open, an answer for an existing slot key is recorded
      in that slot alone, whether or not a team has joined it. */
  lemma SubmitAccepted(s: Session, teamId: SlotId, answer: Option<int>)
    requires s.game.questionActive && teamId in s.game.teams
    ensures var a := SubmitStep(s, teamId, answer).after;
      && a.timerRunning == s.timerRunning
      && a.game.teams == s.game.teams[teamId := s.game.teams[teamId].(answer := answer)]
      && a.game.(teams := s.game.teams) == s.game
  {
  }

  /** Otherwise nothing changes and nothing is emitted. */
  lemma SubmitRejected(s: Session, teamId: SlotId, answer: Option<int>)
    requires !s.game.questionActive || teamId !in s.game.teams
    ensures SubmitStep(s, teamId, answer) == Step(s, [])
  {
  }

  /** A later submission for the same slot overwrites an earlier one. */
  lemma SubmitOverwrites(s: Session, teamId: SlotId, first: Option<int>, second: Option<int>)
    ensures SubmitStep(SubmitStep(s, teamId, first).after, teamId, second).after
         == SubmitStep(s, teamId, second).after
  {
  }

  // ---------------------------------------------------------------- reveal-answers

  /** With a current question, reveal closes it, stops the countdown, leaves the
      seconds left as they were, and adds exactly 100 to every slot whose answer
      equals the correct index and nothing to any other. */
  lemma RevealScores(s: Session)
    requires s.game.currentQuestion.Some?
    ensures var a := RevealStep(s).after; var correct := s.game.currentQuestion.value.correctAnswer;
      && a.game.answersRevealed && !a.game.questionActive && !a.timerRunning
      && a.game.timeRemaining == s.game.timeRemaining
      && a.game.currentQuestion == s.game.currentQuestion
      && a.game.questionIndex == s.game.questionIndex
      && a.game.teams.Keys == s.game.teams.Keys
      && forall id :: id in a.game.teams ==>
           && a.game.teams[id].score ==
                s.game.teams[id].score + (if s.game.teams[id].answer == Some(correct) then Points else 0)
           && a.game.teams[id].(score := s.game.teams[id].score) == s.game.teams[id]
  {
  }

  /** With no current question, reveal changes nothing and emits nothing. */
  lemma RevealWithoutQuestion(s: Session)
    requires s.game.currentQuestion.None?
    ensures RevealStep(s) == Step(s, [])
  {
  }

  /** Reveal is not idempotent: a second reveal awards a still-correct slot again. */
  lemma RevealTwiceAwardsTwice(s: Session, id: SlotId)
    requires s.game.currentQuestion.Some? && id in s.game.teams
    requires s.game.teams[id].answer == Some(s.game.currentQuestion.value.correctAnswer)
    ensures RevealStep(RevealStep(s).after).after.game.teams[id].score == s.game.teams[id].score + 2 * Points
  {
    RevealScores(s);
    RevealScores(RevealStep(s).after);
  }

  // ---------------------------------------------------------------- reset-game

  /** Reset returns any session whose slot keys are the ten fixed ones to the
      state the server starts in. */
  lemma {:induction false} ResetRestoresInitial(s: Session)
    requires s.game.teams.Keys == SlotSet
    ensures ResetStep(s).after == Initial
    ensures ResetStep(s).emitted == [Emit(Everyone, GameReset), Emit(Quizmaster, GameStateSnapshot(Initial.game))]
  {
    assert EmptyAll(s.game.teams) == InitialTeams();
  }

  // ---------------------------------------------------------------- join-team

  /** A slot's own token marks that slot, and only that slot, joined under the given name. */
  lemma JoinKnownToken(s: Session, tokens: map<SlotId, Token>, id: SlotId, teamName: string)
    requires TokensIssued(tokens) && s.game.teams.Keys == SlotSet && id in tokens
    ensures var a := JoinStep(s, tokens, tokens[id], teamName).after;
      && a.timerRunning == s.timerRunning
      && a.game.teams == s.game.teams[id := s.game.teams[id].(name := teamName, connected := true)]
      && a.game.(teams := s.game.teams) == s.game
    ensures JoinStep(s, tokens, tokens[id], teamName).emitted[0] == Emit(Caller, TeamJoined(id, teamName))
  {
    SlotOfIssuedToken(tokens, id);
  }

  /** A token no slot holds changes nothing and answers the caller with an error. */
  lemma JoinUnknownToken(s: Session, tokens: map<SlotId, Token>, token: Token, teamName: string)
    requires tokens.Keys == SlotSet
    requires forall id :: id in tokens ==> tokens[id] != token
    ensures JoinStep(s, tokens, token, teamName) == Step(s, [Emit(Caller, Error("Invalid team token"))])
  {
    SlotOfTokenSound(tokens, token);
  }

  // ---------------------------------------------------------------- invariants

  lemma InitialInv(questions: seq<Question>)
    ensures Inv(Initial, questions)
  {
  }

  lemma {:induction false} AwardAllKeepsScores(teams: map<SlotId, Team>, correct: int)
    requires forall id :: id in teams ==> ScoreOk(teams[id].score)
    ensures AwardAll(teams, correct).Keys == teams.Keys
    ensures forall id :: id in teams ==> ScoreOk(AwardAll(teams, correct)[id].score)
    ensures forall id :: id in teams ==> AwardAll(teams, correct)[id].score >= teams[id].score
  {
    forall id | id in teams
      ensures ScoreOk(AwardAll(teams, correct)[id].score)
    {
      var t := teams[id];
      if t.answer == Some(correct) {
        assert (t.score + Points) % Points == t.score % Points;
      }
    }
  }

  lemma StartPreservesInv(s: Session, questions: seq<Question>, index: int)
    requires Inv(s, questions)
    ensures Inv(StartStep(s, questions, index).after, questions)
  {
  }

  lemma TickPreservesInv(s: Session, questions: seq<Question>)
    requires Inv(s, questions)
    ensures Inv(TickStep(s).after, questions)
  {
  }

  lemma SubmitPreservesInv(s: Session, questions: seq<Question>, teamId: SlotId, answer: Option<int>)
    requires Inv(s, questions)
    ensures Inv(SubmitStep(s, teamId, answer).after, questions)
  {
  }

  lemma RevealPreservesInv(s: Session, questions: seq<Question>)
    requires Inv(s, questions)
    ensures Inv(RevealStep(s).after, questions)
  {
    if s.game.currentQuestion.Some? {
      AwardAllKeepsScores(s.game.teams, s.game.currentQuestion.value.correctAnswer);
    }
  }

  lemma ResetPreservesInv(s: Session, questions: seq<Question>)
    requires Inv(s, questions)
    ensures Inv(ResetStep(s).after, questions)
  {
    ResetRestoresInitial(s);
    InitialInv(questions);
  }

  lemma JoinPreservesInv(s: Session, questions: seq<Question>, tokens: map<SlotId, Token>, token: Token, teamName: string)
    requires Inv(s, questions)
    ensures Inv(JoinStep(s, tokens, token, teamName).after, questions)
  {
  }

  /** Every operation keeps the invariants. */
  lemma ApplyPreservesInv(s: Session, questions: seq<Question>, tokens: map<SlotId, Token>, c: Command)
    requires Inv(s, questions)
    ensures Inv(Apply(s, questions, tokens, c).after, questions)
  {
    match c
    case Start(i) => StartPreservesInv(s, questions, i);
    case Tick => TickPreservesInv(s, questions);
    case Submit(id, a) => SubmitPreservesInv(s, questions, id, a);
    case Reveal => RevealPreservesInv(s, questions);
    case Reset => ResetPreservesInv(s, questions);
    case Join(token, name) => JoinPreservesInv(s, questions, tokens, token, name);
    case JoinQuizmaster =>
    case Disconnect =>
  }

  /** Every state reachable from the start satisfies the invariants. */
  lemma {:induction false} RunPreservesInv(s: Session, questions: seq<Question>, tokens: map<SlotId, Token>, cs: seq<Command>)
    requires Inv(s, questions)
    ensures Inv(Run(s, questions, tokens, cs).after, questions)
    decreases |cs|
  {
    if cs != [] {
      ApplyPreservesInv(s, questions, tokens, cs[0]);
      RunPreservesInv(Apply(s, questions, tokens, cs[0]).after, questions, tokens, cs[1..]);
    }
  }

  /** Scores never go down within a session: only reset lowers them. */
  lemma ScoresNeverDecrease(s: Session, questions: seq<Question>, tokens: map<SlotId, Token>, c: Command, id: SlotId)
    requires Inv(s, questions) && !c.Reset? && id in s.game.teams
    ensures id in Apply(s, questions, tokens, c).after.game.teams
    ensures Apply(s, questions, tokens, c).after.game.teams[id].score >= s.game.teams[id].score
  {
    if c.Reveal? && s.game.currentQuestion.Some? {
      AwardAllKeepsScores(s.game.teams, s.game.currentQuestion.value.correctAnswer);
    }
  }

  // ---------------------------------------------------------------- phases

  /** The question lifecycle each command may lead to from a given phase. */
  function NextPhases(p: Phase, questions: seq<Question>, c: Command): set<Phase>
  {
    match c
    case Start(i) => if 0 <= i < |questions| then {Accepting} else {p}
    case Tick => if p == Accepting then {Accepting, Closed} else {p}
    case Reveal => if p == Idle then {Idle} else {Revealed}
    case Reset => {Idle}
    case _ => {p}
  }

  /** Every command moves the lifecycle along the diagram of NextPhases: start
      always opens, the countdown can only close an open question, reveal from any
      loaded phase reveals, reset always returns to idle. */
  lemma PhaseFollowsDiagram(s: Session, questions: seq<Question>, tokens: map<SlotId, Token>, c: Command)
    requires Inv(s, questions)
    ensures PhaseOf(Apply(s, questions, tokens, c).after.game) in NextPhases(PhaseOf(s.game), questions, c)
  {
  }

  // ---------------------------------------------------------------- a scenario

  /** Question 0 with correct choice 1: team1 answers 1, team2 answers 0, then the
      answers are revealed: team1 has 100 points, team2 has none. */
  lemma ScenarioOneRightOneWrong(questions: seq<Question>, tokens: map<SlotId, Token>)
    requires |questions| > 0 && questions[0].correctAnswer == 1
    ensures var r := Run(Initial, questions, tokens, [Start(0), Submit("team1", Some(1)), Submit("team2", Some(0)), Reveal]);
      && r.after.game.teams["team1"].score == 100
      && r.after.game.teams["team2"].score == 0
      && r.after.game.answersRevealed
  {
    var cs := [Start(0), Submit("team1", Some(1)), Submit("team2", Some(0)), Reveal];
    assert "team1" in SlotSet && "team2" in SlotSet;
    var s1 := StartStep(Initial, questions, 0).after;
    assert s1.game.teams["team1"].score == 0 && s1.game.teams["team2"].score == 0;
    var s2 := SubmitStep(s1, "team1", Some(1)).after;
    assert s2.game.teams["team1"] == Team("", 0, Some(1), false);
    var s3 := SubmitStep(s2, "team2", Some(0)).after;
    assert s3.game.teams["team1"] == Team("", 0, Some(1), false);
    assert s3.game.teams["team2"] == Team("", 0, Some(0), false);
    RevealScores(s3);
    assert Run(s3, questions, tokens, cs[3..]).after == RevealStep(s3).after;
    assert Run(s2, questions, tokens, cs[2..]).after == RevealStep(s3).after;
    assert Run(s1, questions, tokens, cs[1..]).after == RevealStep(s3).after;
  }
}
