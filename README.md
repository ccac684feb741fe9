# Math Adventure — a Dafny model of the game core

This project models the game logic of Math Adventure. It is a children's arithmetic game with two modes.

- **Quick play:** a 60-second round of problems at a chosen grade tier (difficulty 1 to 6) and operation. The score grows with a streak bonus, and the round is rated 0 to 3 stars.
- **Adventure mode:** ten levels, each guarded by a monster. A monster loses a heart for every correct answer. The player loses one of three hearts for every wrong answer or expired question timer. Beating a monster records the level's stars in the player's progress and unlocks the next level.

The model has five modules.

- `Decimal` (`decimal.dfy`) writes integers in decimal, as a JavaScript template literal does. It also reads them back.
- `GameEngine` (`game_engine.dfy`) models the problem generator, answer check, star rating, score and initial quick-play state. Source: `gameEngine.ts`, pure functions.
- `AdventureMode` (`adventure_mode.dfy`) models the monster and level tables and the player progress record. That covers default, load, reset, unlock and the star lookup. Source: `adventureMode.ts`. The progress record is a `PlayerProgress` object. Its per-level table is a separate `LevelTable` object. A shallow copy `{ ...progress }` shares that table, and `UnlockNextLevel` writes through it, as the source does. The pure parts are functions over a `Progress` value.
- `AdventureBattle` (`battle.dfy`) models the battle page as a `Battle` object. Its events are start, timer tick, answer submission and forfeit.
- `QuickPlay` (`quick_play.dfy`) models the quick-play page as a `Round` object with timer tick and answer submission.

`Wrappers` (`wrappers.dfy`) holds the `Option` type.

Randomness is a parameter. Each `Math.floor(Math.random() * n)` is a caller-supplied draw `0 <= draw < n`, so `getRandomNumber(min, max)` is `min + draw`. Every claim about generated problems therefore holds for every possible random outcome. `DrawsFor` shows that every problem the generator can produce is reached by some draw.

Each page class keeps the page's game state in one datatype-valued field (`Battle.state`, `Round.game`). Events reassign that field with an updated copy, as the page's `setState(prev => ({ ...prev, ... }))` does. `Battle` also holds the page's second piece of state, the player's `progress` record, which a won battle replaces with the record `UnlockNextLevel` returns. Each class has a `Valid()` invariant that every event preserves.

Some functions compute a value with no contract of their own; their meaning is stated by lemmas, and the rows below name those lemmas. `CheckAnswer` is characterised by `CheckAnswerAcceptsExactResult` and `QuotientUnique`. `DisplayString` is characterised by `DisplayStringRoundTrip`. `IsLevelUnlocked` is characterised by `DefaultUnlocksOnlyFirstLevel`, `ThirdLevelNeedsSecond`, `UnlockedUnlocksExactlyNext` and `UnlockedKeepsUnlocked`. `BattleLevel` is characterised by `BattleLevelById`.

## Model

| member | source | states |
|---|---|---|
| Decimal.NatToString | FRONTEND/math-adventure/src/lib/gameEngine.ts:97 | the decimal text of a natural number is non-empty, all digits, and has no leading zero unless the number is 0 |
| Decimal.NatToStringRoundTrip | FRONTEND/math-adventure/src/lib/gameEngine.ts:97 | reading the digits of the decimal text back gives the number |
| Decimal.IntToString | FRONTEND/math-adventure/src/lib/gameEngine.ts:97 | the text of an integer is non-empty and has no space; it is all digits exactly when the integer is not negative |
| Decimal.IntToStringRoundTrip | FRONTEND/math-adventure/src/lib/gameEngine.ts:97 | decoding the text of any integer gives that integer back |
| Decimal.IndexOfSpace | FRONTEND/math-adventure/src/lib/gameEngine.ts:97 | the result is the position of the first space, or the length when there is none |
| Decimal.IndexOfSpaceAfterWord | FRONTEND/math-adventure/src/lib/gameEngine.ts:97 | in a space-free word followed by a space, the first space is right after the word |
| GameEngine.GetNumberRange | FRONTEND/math-adventure/src/lib/gameEngine.ts:29-39 | every tier draws from 1 up to one of 10, 20, 50, 100, 500 or 1000 |
| GameEngine.NumberRangeGrowsWithDifficulty | FRONTEND/math-adventure/src/lib/gameEngine.ts:30-37 | a higher tier has a strictly larger maximum |
| GameEngine.RandomNumber | FRONTEND/math-adventure/src/lib/gameEngine.ts:42-44 | the number lies in [min, max] and is min plus the draw |
| GameEngine.OperationSymbol | FRONTEND/math-adventure/src/lib/gameEngine.ts:47-55 | each symbol is a single character other than a space |
| GameEngine.SymbolOperation | FRONTEND/math-adventure/src/lib/gameEngine.ts:47-55 | a recognised symbol is the symbol of the operation returned |
| GameEngine.SymbolRoundTrip | FRONTEND/math-adventure/src/lib/gameEngine.ts:47-55 | the four symbols are distinct: each symbol determines its operation |
| GameEngine.SplitAtSpaceAfterWord | FRONTEND/math-adventure/src/lib/gameEngine.ts:97 | splitting a space-free word, a space and a rest at the first space recovers the word and the rest |
| GameEngine.DisplayStringRoundTrip | FRONTEND/math-adventure/src/lib/gameEngine.ts:97 | `DisplayString`: the display string `num1 symbol num2` is unambiguous: it decodes back to both operands and the operation |
| GameEngine.GenerateProblem | FRONTEND/math-adventure/src/lib/gameEngine.ts:58-100 | for every draw, the problem has the requested operation and its answer is the exact result. Its operands lie in the tier's range: subtraction is never negative, multiplication factors are at most min(12, max/2), division is an exact quotient of factors up to min(12, max). The display string shows both operands |
| GameEngine.DrawsFor | FRONTEND/math-adventure/src/lib/gameEngine.ts:58-100 | every problem satisfying the generator's description is produced by some valid draw |
| GameEngine.GeneratedProblemFacts | FRONTEND/math-adventure/src/lib/gameEngine.ts:69-89 | generated operands are at least 1, subtraction answers are not negative, products lie in 1..144, and division leaves no remainder with the answer as quotient |
| GameEngine.SubtractionFromOne | FRONTEND/math-adventure/src/lib/gameEngine.ts:71-73 | a subtraction starting from 1 is always 1 − 1 = 0 |
| GameEngine.MultiplicationCeilings | FRONTEND/math-adventure/src/lib/gameEngine.ts:78 | the multiplication factor ceiling is 5, 10, 12, 12, 12, 12 for tiers 1 to 6 |
| GameEngine.ProductOfSmallFactors | FRONTEND/math-adventure/src/lib/gameEngine.ts:79-81 | a product of two factors in 1..12 lies in 1..144 |
| GameEngine.ExactQuotient | FRONTEND/math-adventure/src/lib/gameEngine.ts:86-88 | dividing `divisor * quotient` by the divisor leaves no remainder and gives the quotient |
| GameEngine.CheckAnswerAcceptsExactResult | FRONTEND/math-adventure/src/lib/gameEngine.ts:103-105 | `CheckAnswer`: on a generated problem, an answer is accepted exactly when it is the arithmetic result of the two operands |
| GameEngine.QuotientUnique | FRONTEND/math-adventure/src/lib/gameEngine.ts:84-88 | a positive divisor and a dividend have at most one exact quotient, so a division problem has exactly one accepted answer |
| GameEngine.CalculateStars | FRONTEND/math-adventure/src/lib/gameEngine.ts:108-114 | at most 3 stars; 3 exactly at 90% or more, at least 2 exactly at 70%, at least 1 exactly at 50% (integer cross-multiplication of the percentage) |
| GameEngine.PercentageAtLeast | FRONTEND/math-adventure/src/lib/gameEngine.ts:109-112 | the percentage reaches a bound exactly when 100 × correct ≥ bound × total |
| GameEngine.CalculateStarsMonotone | FRONTEND/math-adventure/src/lib/gameEngine.ts:108-114 | more correct answers out of the same total never earn fewer stars |
| GameEngine.CalculateStarsBoundaries | FRONTEND/math-adventure/src/lib/gameEngine.ts:110-113 | 9/10 gives 3, 7/10 gives 2, 5/10 gives 1, 4/10 gives 0 |
| GameEngine.CalculateScore | FRONTEND/math-adventure/src/lib/gameEngine.ts:117-121 | the score lies between the tier base 10 × difficulty and that base plus 25, so always in 10..85 |
| GameEngine.CalculateScoreMonotone | FRONTEND/math-adventure/src/lib/gameEngine.ts:117-121 | a longer streak never scores less, and scores strictly more up to a streak of 5 |
| GameEngine.CalculateScoreStreakCap | FRONTEND/math-adventure/src/lib/gameEngine.ts:119 | the streak bonus stops growing at a streak of 5 |
| GameEngine.CalculateScoreExamples | FRONTEND/math-adventure/src/lib/gameEngine.ts:117-121 | streak 0 at tier 1 scores 10; streak 6 at tier 3 scores 55 |
| GameEngine.CreateInitialGameState | FRONTEND/math-adventure/src/lib/gameEngine.ts:148-162 | a fresh round: zero counters, score and stars, 60 seconds left, not over, and a generated problem of the chosen operation and tier |
| AdventureMode.LevelsTable | FRONTEND/math-adventure/src/lib/adventureMode.ts:32-57 | ten levels numbered 1..10 in order, each with its own monster of at least three hearts and a positive timer |
| AdventureMode.LevelFacts | FRONTEND/math-adventure/src/lib/adventureMode.ts:46-57 | a level of the table sits at position id − 1, and its monster and timer are as above |
| AdventureMode.DefaultProgress | FRONTEND/math-adventure/src/lib/adventureMode.ts:99-107 | the default progress is at level 1 with 0 stars, 3 of 3 hearts and an uncompleted entry for level 1 only |
| AdventureMode.DefaultUnlocksOnlyFirstLevel | FRONTEND/math-adventure/src/lib/adventureMode.ts:153-156 | `IsLevelUnlocked`: with the default progress exactly level 1 is playable |
| AdventureMode.ThirdLevelNeedsSecond | FRONTEND/math-adventure/src/lib/adventureMode.ts:153-156 | `IsLevelUnlocked`: level 3 stays locked while level 2 has no entry or is not completed |
| AdventureMode.GetLevelStars | FRONTEND/math-adventure/src/lib/adventureMode.ts:158-160 | a level without an entry has 0 stars, and no level has more than the sum over all entries |
| AdventureMode.SumStarsUpdate | FRONTEND/math-adventure/src/lib/adventureMode.ts:141 | writing one entry changes the star sum by the difference between the new and the old entry's stars |
| AdventureMode.SumStarsOfDefault | FRONTEND/math-adventure/src/lib/adventureMode.ts:103 | the default progress sums to 0 stars |
| AdventureMode.StarsOverRemove | FRONTEND/math-adventure/src/lib/adventureMode.ts:141 | the sum over a set of entries may take any entry first, so the order in which entries are visited does not matter |
| AdventureMode.StarsOverBounds | FRONTEND/math-adventure/src/lib/adventureMode.ts:141 | if every entry holds at most 3 stars, the sum is at most 3 per entry |
| AdventureMode.TotalStars | FRONTEND/math-adventure/src/lib/adventureMode.ts:141 | adding the entries' stars one by one gives the sum over all entries |
| AdventureMode.Unlocked | FRONTEND/math-adventure/src/lib/adventureMode.ts:128-145 | after winning: the level is completed with exactly the earned stars, and other entries are unchanged. Below level 10 the next level gets an entry if it had none and becomes playable, and the current level moves up to it. The total is the sum over the new entries; hearts are unchanged |
| AdventureMode.UnlockedTotalStars | FRONTEND/math-adventure/src/lib/adventureMode.ts:132-141 | the new total is the old sum with this level's old stars replaced by the new ones, so a worse replay lowers it |
| AdventureMode.UnlockedKeepsUnlocked | FRONTEND/math-adventure/src/lib/adventureMode.ts:128-156 | winning a level never locks a level that was playable |
| AdventureMode.UnlockedUnlocksExactlyNext | FRONTEND/math-adventure/src/lib/adventureMode.ts:128-156 | `IsLevelUnlocked` after a win: a level is playable exactly when it was playable before or it is the level after the one won |
| AdventureMode.ReplayOverwritesStars | FRONTEND/math-adventure/src/lib/adventureMode.ts:128-145 | from the default, winning level 1 with 2 stars unlocks level 2 with total 2; winning it again with 1 star lowers the total to 1 |
| AdventureMode.DefaultIsConsistent | FRONTEND/math-adventure/src/lib/adventureMode.ts:99-107 | the default progress has a correct total, an entry for level 1, only entries of real levels with at most 3 stars, and a current level in 1..10 |
| AdventureMode.UnlockedPreservesConsistency | FRONTEND/math-adventure/src/lib/adventureMode.ts:128-145 | winning a real level with at most 3 stars keeps a consistent progress consistent |
| AdventureMode.ConsistentTotalStarsBound | FRONTEND/math-adventure/src/lib/adventureMode.ts:141 | a consistent total is at most 3 stars per entry |
| AdventureMode.LevelTable.constructor | FRONTEND/math-adventure/src/lib/adventureMode.ts:26 | a per-level table holding the given entries |
| AdventureMode.PlayerProgress.constructor | FRONTEND/math-adventure/src/lib/adventureMode.ts:129 | a record with the given fields that shares the given level table, as the object spread does |
| AdventureMode.NewProgress | FRONTEND/math-adventure/src/lib/adventureMode.ts:115 | a freshly parsed record with a table of its own holds the given value |
| AdventureMode.GetDefaultProgress | FRONTEND/math-adventure/src/lib/adventureMode.ts:99-107 | a new record holding the default progress |
| AdventureMode.LoadProgress | FRONTEND/math-adventure/src/lib/adventureMode.ts:109-121 | the stored record when one parses, otherwise the default progress |
| AdventureMode.ResetProgress | FRONTEND/math-adventure/src/lib/adventureMode.ts:147-151 | a new record holding the default progress, which is consistent |
| AdventureMode.UnlockNextLevel | FRONTEND/math-adventure/src/lib/adventureMode.ts:128-145 | the returned record holds `Unlocked` of the old progress. It shares the level table with the argument, whose table now holds the new entries while its other fields are unchanged |
| AdventureBattle.GetRandomOperation | FRONTEND/math-adventure/src/app/adventure/battle/page.tsx:43-49 | a single-operation level always poses its own operation |
| AdventureBattle.MixedDrawFor | FRONTEND/math-adventure/src/app/adventure/battle/page.tsx:44-47 | a mixed level can pose each of the four operations |
| AdventureBattle.NextProblem | FRONTEND/math-adventure/src/app/adventure/battle/page.tsx:87-93 | a battle's next problem has an operation the level allows and is generated at the level's tier |
| AdventureBattle.FindLevel | FRONTEND/math-adventure/src/app/adventure/battle/page.tsx:77 | a found level is the first one in the sequence with the requested id; when none is found, no level has that id |
| AdventureBattle.BattleLevelById | FRONTEND/math-adventure/src/app/adventure/battle/page.tsx:69-83 | `BattleLevel`: a missing or non-numeric level parameter, or any id outside 1..10, sends the player back to the map; ids 1..10 open their own level |
| AdventureBattle.VictoryStars | FRONTEND/math-adventure/src/app/adventure/battle/page.tsx:189-190 | a victory earns 1 to 3 stars: 3 exactly at 90% accuracy over answered questions plus one, at least 2 exactly at 70% |
| AdventureBattle.AccuracyAtLeast | FRONTEND/math-adventure/src/app/adventure/battle/page.tsx:189-190 | the accuracy reaches a number of tenths exactly when 10 × correct ≥ tenths × total |
| AdventureBattle.VictoryStarsVersusCalculateStars | FRONTEND/math-adventure/src/app/adventure/battle/page.tsx:189-190 | the battle rating is the quick-play rating with a floor of one star |
| AdventureBattle.UnhurtVictoryEarnsThreeStars | FRONTEND/math-adventure/src/app/adventure/battle/page.tsx:189-190 | winning without having lost a heart earns three stars |
| AdventureBattle.VictoryTakesMaxHealthCorrectAnswers | FRONTEND/math-adventure/src/app/adventure/battle/page.tsx:165-186 | a won battle took as many correct answers as the monster's maximum health |
| AdventureBattle.Battle.constructor | FRONTEND/math-adventure/src/app/adventure/battle/page.tsx:84-103 | a new battle: full monster and player health, zero counters, full timer, a generated problem, intro shown |
| AdventureBattle.Battle.StartBattle | FRONTEND/math-adventure/src/app/adventure/battle/page.tsx:252-254 | only the intro is dismissed |
| AdventureBattle.Battle.Tick | FRONTEND/math-adventure/src/app/adventure/battle/page.tsx:107-137 | a running battle loses a second. When time runs out the player loses a heart, and either the battle is lost or the timer resets with a new problem. Outside a running battle nothing changes, and a decided battle stays decided |
| AdventureBattle.Battle.Submit | FRONTEND/math-adventure/src/app/adventure/battle/page.tsx:157-244 | nothing changes in a decided battle or for a non-number. A correct answer hits the monster: the last hit wins and records `Unlocked` with the victory stars in the progress; otherwise a new problem follows. A wrong answer costs a heart: the last heart loses; otherwise a new problem follows |
| AdventureBattle.Battle.Forfeit | FRONTEND/math-adventure/src/app/adventure/battle/page.tsx:263-270 | the player's health drops to 0 and the battle is lost |
| AdventureBattle.ThreeCorrectAnswersWin | FRONTEND/math-adventure/src/app/adventure/battle/page.tsx:157-209 | three correct answers against a three-heart monster win with three stars, and the progress records `Unlocked(old, level, 3)` |
| AdventureBattle.TimeoutsLose | FRONTEND/math-adventure/src/app/adventure/battle/page.tsx:107-137 | letting the timer run out three times loses the battle with no question counted as answered |
| QuickPlay.OrOne | FRONTEND/math-adventure/src/app/game/page.tsx:64 | `questionsAnswered \|\| 1` is at least 1 and equals the count when that is not 0 |
| QuickPlay.Round.constructor | FRONTEND/math-adventure/src/app/game/page.tsx:40-44 | the round starts in the initial game state, which satisfies the round invariant |
| QuickPlay.Round.Tick | FRONTEND/math-adventure/src/app/game/page.tsx:49-73 | a running round loses a second. The last second ends it, rated by `CalculateStars` over `questionsAnswered \|\| 1`. A finished round does not change |
| QuickPlay.Round.Submit | FRONTEND/math-adventure/src/app/game/page.tsx:76-135 | nothing changes in a finished round or for a non-number. A correct answer adds `CalculateScore` of the extended streak and counts as correct; a wrong one resets the streak and counts as wrong. Either way a new problem follows and the score never drops |
| QuickPlay.Round.ResultStars | FRONTEND/math-adventure/src/app/game/page.tsx:144-147 | the stored rating is at most 3 and agrees with the rating recorded when the round ended |
| QuickPlay.PerfectRoundEarnsThreeStars | FRONTEND/math-adventure/src/app/game/page.tsx:58-65 | a finished round with at least one answer and none wrong earns three stars |
| QuickPlay.SilentRoundEarnsNoStars | FRONTEND/math-adventure/src/app/game/page.tsx:58-65 | a finished round with no answers has score 0 and 0 stars |
| QuickPlay.UnansweredRoundEnds | FRONTEND/math-adventure/src/app/game/page.tsx:49-73 | sixty ticks without an answer end the round with no score and no stars |

## Left out

- Storage: reading and writing `localStorage` and `sessionStorage` (saving progress, avatar, results) are not modelled. `LoadProgress` takes the parsed stored record as a parameter; None stands for nothing stored, no window, or a parse failure.
- Parsing: `parseInt` of the answer box and of URL parameters is not modelled. Submitted answers are `Option<int>`, with None for NaN, and the battle's level parameter is `Option<int>`.
- Randomness and timers: `Math.random` becomes explicit draws, and `setInterval`/`setTimeout` become explicit `Tick` calls.
- Presentation: sounds, animation and feedback flags, emoji, descriptions, story texts, avatars, routing and rendering are not modelled. The page's render order is kept only as `PhaseOf`.
- Other modes: multiplayer rooms, Firebase and the other pages are not part of this model.
- Floating point: percentages and accuracies are exact rationals. Any rounding of the source's double-precision division and multiplication at a value exactly on a threshold is not captured.
- GameEngine.GenerateProblem: the `default` branch (1 ? 1 = 2) is unreachable for the four operations of the type and is not modelled. So is a difficulty outside 1..6 reached through an unchecked URL cast, where the source reads an undefined range.
- AdventureMode.LoadProgress: the stored value is taken to be a progress record, as `saveProgress` writes it. Stored text that parses to `null` or to something that is not a progress record is not modelled. So the battle page's missing-progress case (`if (progress)` false, where a win records nothing) is not modelled either.
- AdventureBattle.Battle.Submit: submission is not gated on the intro screen, and `Forfeit` is not gated on the battle being undecided. This follows the code; the page offers these controls only while the battle is in progress.
- AdventureMode.UnlockNextLevel: saving to storage is left out, as above. Level records are taken to hold natural star counts, so `l.stars || 0` is `l.stars`.
- AdventureMode.Progress: the record's `levels` object is a map from level id to entry; JavaScript's key order in `Object.values` has no effect on the sum, which `StarsOverRemove` shows.
