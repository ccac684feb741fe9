/**
 * The single-player adventure battle
 * (FRONTEND/math-adventure/src/app/adventure/battle/page.tsx): the battle
 * state and the events that change it — starting the battle, the one-second
 * timer tick, answer submission and forfeit. Rendering, sounds, the
 * animation flags and navigation are not modelled.
 */
module AdventureBattle {
  import opened Wrappers
  import opened GameEngine
  import opened AdventureMode

  /** The operation of the next problem; `draw` stands for `Math.floor(Math.random() * 4)`. */
  function GetRandomOperation(operation: LevelOperation, draw: nat): (op: Operation)
    requires draw < 4
    ensures operation.Single? ==> op == operation.op
  {
    match operation
    case Single(op) => op
    case Mixed => [Addition, Subtraction, Multiplication, Division][draw]
  }

  /** A mixed level can pose every kind of problem: the draw that picks `op`. */
  function MixedDrawFor(op: Operation): (draw: nat)
    ensures draw < 4 && GetRandomOperation(Mixed, draw) == op
  {
    match op
    case Addition => 0
    case Subtraction => 1
    case Multiplication => 2
    case Division => 3
  }

  predicate Allows(operation: LevelOperation, op: Operation) {
    operation.Mixed? || operation.op == op
  }

  /** The random draws behind one new problem: its operation, then its two operands. */
  datatype Draw = Draw(operation: nat, first: nat, second: nat)

  predicate DrawFits(level: Level, d: Draw) {
    d.operation < 4
    && DrawsFit(level.difficulty, GetRandomOperation(level.operation, d.operation), d.first, d.second)
  }

  /** `generateProblem(level.difficulty, getRandomOperation(level.operation))`. */
  function NextProblem(level: Level, d: Draw): (p: MathProblem)
    requires DrawFits(level, d)
    ensures Allows(level.operation, p.operation) && Generated(level.difficulty, p)
  {
    GenerateProblem(level.difficulty, GetRandomOperation(level.operation, d.operation), d.first, d.second)
  }

  /** `levels.find(l => l.id === levelId)`: the first level with that id. */
  function FindLevel(levels: seq<Level>, levelId: int): (r: Option<Level>)
    ensures r.Some? ==> r.value in levels && r.value.id == levelId
    ensures r.Some? ==> exists i :: 0 <= i < |levels| && levels[i] == r.value
                                    && forall j :: 0 <= j < i ==> levels[j].id != levelId
    ensures r.None? ==> forall i :: 0 <= i < |levels| ==> levels[i].id != levelId
  {
    if levels == [] then None
    else if levels[0].id == levelId then Some(levels[0])
    else
      var r := FindLevel(levels[1..], levelId);
      assert r.Some? ==> exists i :: 0 <= i < |levels| && levels[i] == r.value
                                     && forall j :: 0 <= j < i ==> levels[j].id != levelId by {
        if r.Some? {
          var k :| 0 <= k < |levels[1..]| && levels[1..][k] == r.value
                   && forall j :: 0 <= j < k ==> levels[1..][j].id != levelId;
          assert levels[k + 1] == r.value;
          assert forall j :: 0 <= j < k + 1 ==> levels[j].id != levelId by {
            forall j | 0 <= j < k + 1
              ensures levels[j].id != levelId
            {
              if j > 0 {
                assert levels[j] == levels[1..][j - 1];
              }
            }
          }
        }
      }
      r
  }

  /**
   * The level a battle page opens: `levelParam` is the `level` query parameter
   * after `parseInt`, None when it is missing or not a number. None means the
   * page goes back to the adventure map.
   */
  function BattleLevel(levelParam: Option<int>): Option<Level> {
    match levelParam
    case None => None
    case Some(levelId) => FindLevel(Levels, levelId)
  }

  lemma BattleLevelById(levelId: int)
    ensures BattleLevel(None).None?
    ensures 1 <= levelId <= |Levels| ==> BattleLevel(Some(levelId)) == Some(Levels[levelId - 1])
    ensures !(1 <= levelId <= |Levels|) ==> BattleLevel(Some(levelId)).None?
  {
    LevelsTable();
    var r := BattleLevel(Some(levelId));
    if r.Some? {
      LevelFacts(r.value);
    }
  }

  /** Hearts a player starts a battle with. */
  const PlayerHearts := 3

  datatype BattleState = BattleState(
    level: Level,
    monsterHealth: int,
    playerHealth: int,
    currentProblem: MathProblem,
    questionsAnswered: nat,
    correctAnswers: nat,
    timeLeft: int,
    isVictory: bool,
    isDefeat: bool,
    showIntro: bool)

  datatype Phase = Intro | InProgress | Victory | Defeat

  /** The screen the page renders for a state, checked in the page's order. */
  function PhaseOf(b: BattleState): Phase {
    if b.showIntro then Intro
    else if b.isVictory then Victory
    else if b.isDefeat then Defeat
    else InProgress
  }

  /** What holds of every battle state from its creation on. */
  ghost predicate Invariant(b: BattleState) {
    && b.level in Levels
    && 0 <= b.monsterHealth <= b.level.monster.maxHealth
    && b.correctAnswers + b.monsterHealth == b.level.monster.maxHealth
    && (b.isVictory <==> b.monsterHealth == 0)
    && 0 <= b.playerHealth <= PlayerHearts
    && (b.isDefeat <==> b.playerHealth == 0)
    // a correct answer that wins is not added to questionsAnswered
    && b.correctAnswers <= b.questionsAnswered + (if b.isVictory then 1 else 0)
    // every answered question that was wrong cost a heart
    && b.questionsAnswered + (if b.isVictory then 1 else 0) - b.correctAnswers <= PlayerHearts - b.playerHealth
    && 0 <= b.timeLeft <= b.level.timePerQuestion
    && (b.timeLeft >= 1 || b.isDefeat)
    && Allows(b.level.operation, b.currentProblem.operation)
    && Generated(b.level.difficulty, b.currentProblem)
  }

  /**
   * Stars for a won battle, from the accuracy `correctAnswers / (questionsAnswered + 1)`:
   * 90% or more gives 3, 70% gives 2, anything else 1.
   */
  function VictoryStars(correctAnswers: nat, questionsAnswered: nat): (stars: nat)
    ensures 1 <= stars <= 3
    ensures stars == 3 <==> 10 * correctAnswers >= 9 * (questionsAnswered + 1)
    ensures stars >= 2 <==> 10 * correctAnswers >= 7 * (questionsAnswered + 1)
  {
    var accuracy := correctAnswers as real / (questionsAnswered + 1) as real;
    AccuracyAtLeast(correctAnswers, questionsAnswered + 1, 9);
    AccuracyAtLeast(correctAnswers, questionsAnswered + 1, 7);
    if accuracy >= 0.9 then 3 else if accuracy >= 0.7 then 2 else 1
  }

  lemma AccuracyAtLeast(correct: nat, total: nat, tenths: nat)
    requires total >= 1
    ensures correct as real / total as real >= tenths as real / 10.0 <==> 10 * correct >= tenths * total
  {
    var q := correct as real / total as real;
    assert q * total as real == correct as real;
    assert (q >= tenths as real / 10.0) <==> (q * total as real >= tenths as real / 10.0 * total as real);
  }

  /** The battle's stars agree with the quick-play rating, except that a won battle never earns 0. */
  lemma VictoryStarsVersusCalculateStars(correctAnswers: nat, questionsAnswered: nat)
    ensures VictoryStars(correctAnswers, questionsAnswered)
         == Max(1, CalculateStars(correctAnswers, questionsAnswered + 1))
  {
  }

  /** Winning without having lost a heart means no wrong answer, hence three stars. */
  lemma UnhurtVictoryEarnsThreeStars(b: BattleState)
    requires Invariant(b) && !b.isVictory && b.playerHealth == PlayerHearts
    ensures VictoryStars(b.correctAnswers + 1, b.questionsAnswered) == 3
  {
  }

  /** A won battle took exactly as many correct answers as the monster has hearts. */
  lemma VictoryTakesMaxHealthCorrectAnswers(b: BattleState)
    requires Invariant(b) && b.isVictory
    ensures b.correctAnswers == b.level.monster.maxHealth
    ensures b.correctAnswers <= b.questionsAnswered + 1
  {
  }

  /** The battle page: its battle state and the player's progress. */
  class Battle {
    var state: BattleState
    var progress: PlayerProgress

    ghost predicate Valid()
      reads this
    {
      Invariant(state)
    }

    /** The timer runs only once the intro is dismissed and until the battle is decided. */
    predicate Running()
      reads this
    {
      !state.isVictory && !state.isDefeat && !state.showIntro
    }

    /** The page opened on `level`, with `progress` loaded from storage. */
    constructor (level: Level, progress: PlayerProgress, draw: Draw)
      requires level in Levels && DrawFits(level, draw)
      ensures Valid() && this.progress == progress
      ensures state == BattleState(level, level.monster.maxHealth, PlayerHearts, NextProblem(level, draw),
                                   0, 0, level.timePerQuestion, false, false, true)
      ensures PhaseOf(state) == Intro
    {
      LevelFacts(level);
      state := BattleState(level, level.monster.maxHealth, PlayerHearts, NextProblem(level, draw),
                           0, 0, level.timePerQuestion, false, false, true);
      this.progress := progress;
    }

    method StartBattle()
      requires Valid()
      modifies this
      ensures Valid() && progress == old(progress)
      ensures state == old(state).(showIntro := false)
    {
      state := state.(showIntro := false);
    }

    /** One second of the countdown; running out of time costs a heart. */
    method Tick(draw: Draw)
      requires Valid() && DrawFits(state.level, draw)
      modifies this
      ensures Valid() && progress == old(progress)
      ensures !old(Running()) ==> state == old(state)
      ensures old(Running()) && old(state.timeLeft) > 1 ==>
        state == old(state).(timeLeft := old(state.timeLeft) - 1)
      ensures old(Running()) && old(state.timeLeft) <= 1 && old(state.playerHealth) > 1 ==>
        state == old(state).(timeLeft := old(state.level.timePerQuestion),
                             playerHealth := old(state.playerHealth) - 1,
                             currentProblem := NextProblem(old(state.level), draw))
      ensures old(Running()) && old(state.timeLeft) <= 1 && old(state.playerHealth) <= 1 ==>
        state == old(state).(timeLeft := 0, playerHealth := 0, isDefeat := true)
      ensures state.questionsAnswered == old(state.questionsAnswered)
      ensures state.playerHealth <= old(state.playerHealth)
      ensures old(PhaseOf(state)) in {Victory, Defeat} ==> PhaseOf(state) == old(PhaseOf(state))
    {
      if !Running() {
        return;
      }
      var newTimeLeft := state.timeLeft - 1;
      if newTimeLeft <= 0 {
        var newHealth := state.playerHealth - 1;
        if newHealth <= 0 {
          state := state.(timeLeft := 0, playerHealth := 0, isDefeat := true);
          return;
        }
        state := state.(timeLeft := state.level.timePerQuestion, playerHealth := newHealth,
                        currentProblem := NextProblem(state.level, draw));
        return;
      }
      state := state.(timeLeft := newTimeLeft);
    }

    /**
     * The player submits `answer` (None when the input is not a number). A
     * correct answer hits the monster; the hit that empties its health wins and
     * records the level's stars in the progress. A wrong answer costs a heart.
     */
    method Submit(answer: Option<int>, draw: Draw)
      requires Valid() && DrawFits(state.level, draw)
      modifies this, progress.levels
      ensures Valid()
      ensures state.level == old(state.level)
      ensures old(state.isVictory || state.isDefeat) || answer.None? ==>
        state == old(state) && progress == old(progress) && unchanged(progress.levels)
      ensures !old(state.isVictory || state.isDefeat) && answer.Some? ==>
        var b := old(state);
        var correct := CheckAnswer(b.currentProblem, answer.value);
        && (correct && b.monsterHealth <= 1 ==>
              && state == b.(monsterHealth := 0, correctAnswers := b.correctAnswers + 1, isVictory := true)
              && fresh(progress) && progress.levels == old(progress.levels)
              && progress.Value()
                 == Unlocked(old(progress.Value()), b.level.id, VictoryStars(b.correctAnswers + 1, b.questionsAnswered)))
        && (correct && b.monsterHealth > 1 ==>
              && state == b.(monsterHealth := b.monsterHealth - 1, correctAnswers := b.correctAnswers + 1,
                             questionsAnswered := b.questionsAnswered + 1, timeLeft := b.level.timePerQuestion,
                             currentProblem := NextProblem(b.level, draw))
              && progress == old(progress) && unchanged(progress.levels))
        && (!correct && b.playerHealth <= 1 ==>
              && state == b.(playerHealth := 0, isDefeat := true)
              && progress == old(progress) && unchanged(progress.levels))
        && (!correct && b.playerHealth > 1 ==>
              && state == b.(playerHealth := b.playerHealth - 1, questionsAnswered := b.questionsAnswered + 1,
                             timeLeft := b.level.timePerQuestion, currentProblem := NextProblem(b.level, draw))
              && progress == old(progress) && unchanged(progress.levels))
    {
      if state.isVictory || state.isDefeat {
        return;
      }
      if answer.None? {
        return;
      }
      var isCorrect := CheckAnswer(state.currentProblem, answer.value);
      if isCorrect {
        var newMonsterHealth := state.monsterHealth - 1;
        var newCorrectAnswers := state.correctAnswers + 1;
        if newMonsterHealth <= 0 {
          var stars := VictoryStars(newCorrectAnswers, state.questionsAnswered);
          state := state.(monsterHealth := 0, correctAnswers := newCorrectAnswers, isVictory := true);
          progress := UnlockNextLevel(progress, state.level.id, stars);
        } else {
          state := state.(monsterHealth := newMonsterHealth, correctAnswers := newCorrectAnswers,
                          questionsAnswered := state.questionsAnswered + 1,
                          timeLeft := state.level.timePerQuestion,
                          currentProblem := NextProblem(state.level, draw));
        }
      } else {
        var newHealth := state.playerHealth - 1;
        if newHealth <= 0 {
          state := state.(playerHealth := 0, isDefeat := true);
        } else {
          state := state.(playerHealth := newHealth, questionsAnswered := state.questionsAnswered + 1,
                          timeLeft := state.level.timePerQuestion,
                          currentProblem := NextProblem(state.level, draw));
        }
      }
    }

    /** The player gives up: no hearts left, the battle is lost. */
    method Forfeit()
      requires Valid()
      modifies this
      ensures Valid() && progress == old(progress)
      ensures state == old(state).(playerHealth := 0, isDefeat := true)
      ensures old(PhaseOf(state)) != Victory ==> PhaseOf(state) in {Intro, Defeat}
    {
      state := state.(playerHealth := 0, isDefeat := true);
    }
  }

  /**
   * Three correct answers in a row beat a three-heart monster (the slime of
   * level 1): the battle is won with accuracy 3 / (2 + 1), worth three stars,
   * and the progress records the level completed with them.
   */
  method ThreeCorrectAnswersWin(level: Level, progress: PlayerProgress, draw: Draw) returns (b: Battle)
    requires level in Levels && level.monster.maxHealth == 3 && DrawFits(level, draw)
    modifies progress.levels
    ensures fresh(b) && PhaseOf(b.state) == Victory
    ensures b.state.correctAnswers == 3 && b.state.questionsAnswered == 2 && b.state.playerHealth == PlayerHearts
    ensures b.progress.Value() == Unlocked(old(progress.Value()), level.id, 3)
  {
    b := new Battle(level, progress, draw);
    b.StartBattle();
    b.Submit(Some(b.state.currentProblem.answer), draw);
    b.Submit(Some(b.state.currentProblem.answer), draw);
    b.Submit(Some(b.state.currentProblem.answer), draw);
  }

  /**
   * Letting the question timer run out once per heart loses the battle: each
   * timeout costs a heart, none counts as an answered question, and the
   * progress is left alone.
   */
  method TimeoutsLose(level: Level, progress: PlayerProgress, draw: Draw) returns (b: Battle)
    requires level in Levels && DrawFits(level, draw)
    ensures fresh(b) && PhaseOf(b.state) == Defeat && b.progress == progress
    ensures b.state.playerHealth == 0 && b.state.timeLeft == 0
    ensures b.state.questionsAnswered == 0 && b.state.correctAnswers == 0
  {
    LevelFacts(level);
    b := new Battle(level, progress, draw);
    b.StartBattle();
    var lost := 0;
    while lost < PlayerHearts
      invariant 0 <= lost <= PlayerHearts
      invariant b.Valid() && b.progress == progress && b.state.level == level
      invariant !b.state.showIntro && !b.state.isVictory
      invariant b.state.questionsAnswered == 0 && b.state.correctAnswers == 0
      invariant b.state.playerHealth == PlayerHearts - lost
      invariant lost < PlayerHearts ==> b.state.timeLeft == level.timePerQuestion
      invariant lost == PlayerHearts ==> b.state.timeLeft == 0
    {
      var ticks := 0;
      while ticks < level.timePerQuestion
        invariant 0 <= ticks <= level.timePerQuestion
        invariant b.Valid() && b.progress == progress && b.state.level == level
        invariant !b.state.showIntro && !b.state.isVictory
        invariant b.state.questionsAnswered == 0 && b.state.correctAnswers == 0
        invariant ticks < level.timePerQuestion ==>
          b.state.playerHealth == PlayerHearts - lost && b.state.timeLeft == level.timePerQuestion - ticks
        invariant ticks == level.timePerQuestion ==> b.state.playerHealth == PlayerHearts - lost - 1
        invariant ticks == level.timePerQuestion && b.state.playerHealth > 0 ==>
          b.state.timeLeft == level.timePerQuestion
        invariant ticks == level.timePerQuestion && b.state.playerHealth == 0 ==> b.state.timeLeft == 0
      {
        b.Tick(draw);
        ticks := ticks + 1;
      }
      lost := lost + 1;
    }
  }
}
