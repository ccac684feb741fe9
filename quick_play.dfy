/**
 * The quick-play round (FRONTEND/math-adventure/src/app/game/page.tsx): a
 * 60-second round whose state changes on every timer tick and every submitted
 * answer. Rendering, sounds, the feedback flash and navigation are not
 * modelled; writing the results to session storage is reduced to the star
 * rating it stores.
 */
module QuickPlay {
  import opened Wrappers
  import opened GameEngine

  /** `n || 1`: the question count used as a divisor. */
  function OrOne(n: nat): (r: nat)
    ensures r >= 1 && (n >= 1 ==> r == n)
  {
    if n == 0 then 1 else n
  }

  /** What holds of the round state from its creation on. */
  ghost predicate Invariant(g: GameState) {
    && g.questionsAnswered == g.correctAnswers + g.wrongAnswers
    && g.streak <= g.correctAnswers
    && 0 <= g.timeLeft <= RoundSeconds
    && (g.isGameOver <==> g.timeLeft == 0)
    && g.stars == (if g.isGameOver then CalculateStars(g.correctAnswers, OrOne(g.questionsAnswered)) else 0)
    && g.currentProblem.Some?
    && g.currentProblem.value.operation == g.operation
    && Generated(g.difficulty, g.currentProblem.value)
    // every correct answer scored at least the tier's base and at most base plus the full streak bonus
    && 10 * g.difficulty * g.correctAnswers <= g.score <= (10 * g.difficulty + 25) * g.correctAnswers
  }

  class Round {
    var game: GameState

    ghost predicate Valid()
      reads this
    {
      Invariant(game)
    }

    /** The page opened with a grade tier and an operation: a fresh round. */
    constructor (difficulty: Difficulty, operation: Operation, first: nat, second: nat)
      requires DrawsFit(difficulty, operation, first, second)
      ensures Valid() && game == CreateInitialGameState(difficulty, operation, first, second)
    {
      game := CreateInitialGameState(difficulty, operation, first, second);
    }

    /** One second of the round's clock; the last one ends the round and rates it. */
    method Tick()
      requires Valid()
      modifies this
      ensures Valid()
      ensures old(game.isGameOver) ==> game == old(game)
      ensures !old(game.isGameOver) && old(game.timeLeft) > 1 ==>
        game == old(game).(timeLeft := old(game.timeLeft) - 1)
      ensures !old(game.isGameOver) && old(game.timeLeft) <= 1 ==>
        game == old(game).(timeLeft := 0, isGameOver := true,
                           stars := CalculateStars(old(game.correctAnswers), OrOne(old(game.questionsAnswered))))
    {
      if game.isGameOver {
        return;
      }
      var newTimeLeft := game.timeLeft - 1;
      if newTimeLeft <= 0 {
        game := game.(timeLeft := 0, isGameOver := true,
                      stars := CalculateStars(game.correctAnswers, OrOne(game.questionsAnswered)));
      } else {
        game := game.(timeLeft := newTimeLeft);
      }
    }

    /**
     * The player submits `answer` (None when the input is not a number); the
     * draws make the next problem. A correct answer scores with the streak it
     * extends; a wrong one breaks the streak.
     */
    method Submit(answer: Option<int>, first: nat, second: nat)
      requires Valid() && DrawsFit(game.difficulty, game.operation, first, second)
      modifies this
      ensures Valid()
      ensures game.score >= old(game.score)
      ensures old(game.isGameOver) || old(game.currentProblem).None? || answer.None? ==> game == old(game)
      ensures !old(game.isGameOver) && old(game.currentProblem).Some? && answer.Some? ==>
        var g := old(game);
        var next := Some(GenerateProblem(g.difficulty, g.operation, first, second));
        if CheckAnswer(g.currentProblem.value, answer.value) then
          game == g.(score := g.score + CalculateScore(g.streak + 1, g.difficulty), streak := g.streak + 1,
                     correctAnswers := g.correctAnswers + 1, questionsAnswered := g.questionsAnswered + 1,
                     currentProblem := next)
        else
          game == g.(streak := 0, wrongAnswers := g.wrongAnswers + 1,
                     questionsAnswered := g.questionsAnswered + 1, currentProblem := next)
    {
      if game.currentProblem.None? || game.isGameOver {
        return;
      }
      if answer.None? {
        return;
      }
      var isCorrect := CheckAnswer(game.currentProblem.value, answer.value);
      if isCorrect {
        var newStreak := game.streak + 1;
        var scoreGained := CalculateScore(newStreak, game.difficulty);
        ScoreBoundsStep(game.score, game.correctAnswers, game.difficulty, scoreGained);
        game := game.(score := game.score + scoreGained, streak := newStreak,
                      correctAnswers := game.correctAnswers + 1,
                      questionsAnswered := game.questionsAnswered + 1,
                      currentProblem := Some(GenerateProblem(game.difficulty, game.operation, first, second)));
      } else {
        game := game.(streak := 0, wrongAnswers := game.wrongAnswers + 1,
                      questionsAnswered := game.questionsAnswered + 1,
                      currentProblem := Some(GenerateProblem(game.difficulty, game.operation, first, second)));
      }
    }

    /** The stars stored with the results once the round is over. */
    function ResultStars(): (stars: nat)
      reads this
      ensures stars <= 3
      ensures Valid() && game.isGameOver ==> stars == game.stars
    {
      CalculateStars(game.correctAnswers, OrOne(game.questionsAnswered))
    }
  }

  /** A finished round with at least one answer and none wrong is rated three stars. */
  lemma PerfectRoundEarnsThreeStars(g: GameState)
    requires Invariant(g) && g.isGameOver && g.questionsAnswered >= 1 && g.wrongAnswers == 0
    ensures g.stars == 3
  {
  }

  /** A finished round with no answer at all is rated as 0 out of 1: no stars. */
  lemma SilentRoundEarnsNoStars(g: GameState)
    requires Invariant(g) && g.isGameOver && g.questionsAnswered == 0
    ensures g.stars == 0 && g.score == 0
  {
  }

  lemma ScoreBoundsStep(score: nat, correct: nat, difficulty: Difficulty, gained: nat)
    requires 10 * difficulty * correct <= score <= (10 * difficulty + 25) * correct
    requires 10 * difficulty <= gained <= 10 * difficulty + 25
    ensures 10 * difficulty * (correct + 1) <= score + gained <= (10 * difficulty + 25) * (correct + 1)
  {
    assert 10 * difficulty * (correct + 1) == 10 * difficulty * correct + 10 * difficulty;
    assert (10 * difficulty + 25) * (correct + 1) == (10 * difficulty + 25) * correct + (10 * difficulty + 25);
  }

  /** A round in which nothing is answered ends after 60 ticks with no score and no stars. */
  method UnansweredRoundEnds(difficulty: Difficulty, operation: Operation, first: nat, second: nat)
    returns (round: Round)
    requires DrawsFit(difficulty, operation, first, second)
    ensures fresh(round) && round.game.isGameOver
    ensures round.game.score == 0 && round.game.stars == 0 && round.ResultStars() == 0
  {
    round := new Round(difficulty, operation, first, second);
    var ticks := 0;
    while ticks < RoundSeconds
      invariant 0 <= ticks <= RoundSeconds
      invariant round.Valid() && round.game.questionsAnswered == 0 && round.game.score == 0
      invariant round.game.timeLeft == RoundSeconds - ticks
    {
      round.Tick();
      ticks := ticks + 1;
    }
  }
}
