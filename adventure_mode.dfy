/**
 * Levels, monsters and the level-progression state machine of adventure mode
 * (FRONTEND/math-adventure/src/lib/adventureMode.ts).
 *
 * A progress record is an object whose `levels` table is itself an object:
 * `unlockNextLevel` copies the record shallowly and then writes into the
 * shared table, so the caller's record sees the new entries too. Storage
 * (`localStorage`) is not modelled; loading takes the already parsed value.
 */
module AdventureMode {
  import opened Wrappers
  import opened GameEngine

  datatype Monster = Monster(id: string, name: string, maxHealth: nat)

  const Slime := Monster("slime", "Slimy", 3)
  const Goblin := Monster("goblin", "Gobby", 4)
  const Skeleton := Monster("skeleton", "Bones", 5)
  const Ghost := Monster("ghost", "Spooky", 5)
  const Vampire := Monster("vampire", "Count Mathula", 6)
  const Wizard := Monster("wizard", "Dividus", 6)
  const BabyDragon := Monster("dragon_baby", "Sparky", 7)
  const Ogre := Monster("ogre", "Grumble", 8)
  const Demon := Monster("demon", "Blazehorn", 9)
  const DragonKing := Monster("dragon_king", "Math Dragon King", 10)

  const Monsters: seq<Monster> :=
    [Slime, Goblin, Skeleton, Ghost, Vampire, Wizard, BabyDragon, Ogre, Demon, DragonKing]

  /** A level's operation: one fixed kind, or a fresh random kind for every problem. */
  datatype LevelOperation = Single(op: Operation) | Mixed

  datatype Level = Level(
    id: int,
    name: string,
    monster: Monster,
    operation: LevelOperation,
    difficulty: Difficulty,
    questionsToWin: nat,
    timePerQuestion: int,
    isUnlocked: bool,
    starsEarned: nat)

  const Levels: seq<Level> := [
    Level(1, "Slime Forest", Slime, Single(Addition), 1, 5, 15, true, 0),
    Level(2, "Goblin Cave", Goblin, Single(Subtraction), 1, 5, 15, false, 0),
    Level(3, "Skeleton Dungeon", Skeleton, Single(Addition), 2, 6, 12, false, 0),
    Level(4, "Haunted Mansion", Ghost, Single(Multiplication), 2, 6, 12, false, 0),
    Level(5, "Vampire Castle", Vampire, Mixed, 3, 7, 10, false, 0),
    Level(6, "Wizard Tower", Wizard, Single(Division), 3, 7, 10, false, 0),
    Level(7, "Dragon Nest", BabyDragon, Mixed, 4, 8, 8, false, 0),
    Level(8, "Ogre Swamp", Ogre, Mixed, 5, 8, 8, false, 0),
    Level(9, "Demon Realm", Demon, Mixed, 5, 9, 7, false, 0),
    Level(10, "Dragon King Lair", DragonKing, Mixed, 6, 10, 6, false, 0)
  ]

  lemma LevelsTable()
    ensures |Levels| == 10 && |Monsters| == 10
    ensures forall i :: 0 <= i < |Levels| ==>
      && Levels[i].id == i + 1
      && Levels[i].monster == Monsters[i]
      && Levels[i].monster.maxHealth >= 3
      && Levels[i].timePerQuestion > 0
  {
  }

  /** Every level of the table starts a battle with a monster of at least three hearts and a positive timer. */
  lemma LevelFacts(level: Level)
    requires level in Levels
    ensures 1 <= level.id <= |Levels| && Levels[level.id - 1] == level
    ensures level.monster.maxHealth >= 3 && level.timePerQuestion > 0
  {
    LevelsTable();
  }

  datatype LevelRecord = LevelRecord(completed: bool, stars: nat)

  /** The value of a progress record. */
  datatype Progress = Progress(
    currentLevel: int,
    totalStars: int,
    levels: map<int, LevelRecord>,
    hearts: int,
    maxHearts: int)

  function DefaultProgress(): (p: Progress)
    ensures p.currentLevel == 1 && p.totalStars == 0 && p.hearts == 3 && p.maxHearts == 3
    ensures p.levels.Keys == {1} && p.levels[1] == LevelRecord(false, 0)
  {
    Progress(1, 0, map[1 := LevelRecord(false, 0)], 3, 3)
  }

  /** Level `levelId` is playable: the first level always, any other once its predecessor is completed. */
  function IsLevelUnlocked(p: Progress, levelId: int): bool {
    levelId == 1 || (levelId - 1 in p.levels && p.levels[levelId - 1].completed)
  }

  lemma NonEmptyHasElement(keys: set<int>)
    requires keys != {}
    ensures exists k :: k in keys
  {
    if forall k :: k !in keys {
      assert false;
    }
  }

  /** Stars over the entries `keys` of `levels`, taken in any order. */
  ghost function StarsOver(levels: map<int, LevelRecord>, keys: set<int>): nat
    requires keys <= levels.Keys
    decreases keys
  {
    if keys == {} then 0
    else
      NonEmptyHasElement(keys);
      var k :| k in keys;
      levels[k].stars + StarsOver(levels, keys - {k})
  }

  /** The sum of the stars of every level entry. */
  ghost function SumStars(levels: map<int, LevelRecord>): nat {
    StarsOver(levels, levels.Keys)
  }

  /** Any entry can be taken out of the sum first. */
  lemma {:induction false} StarsOverRemove(levels: map<int, LevelRecord>, keys: set<int>, k: int)
    requires keys <= levels.Keys && k in keys
    ensures StarsOver(levels, keys) == levels[k].stars + StarsOver(levels, keys - {k})
    decreases keys
  {
    var j :| j in keys && StarsOver(levels, keys) == levels[j].stars + StarsOver(levels, keys - {j});
    if j != k {
      StarsOverRemove(levels, keys - {j}, k);
      StarsOverRemove(levels, keys - {k}, j);
      assert keys - {j} - {k} == keys - {k} - {j};
    }
  }

  /** The sum only depends on the stars of the entries it covers. */
  lemma {:induction false} StarsOverSameStars(m1: map<int, LevelRecord>, m2: map<int, LevelRecord>, keys: set<int>)
    requires keys <= m1.Keys && keys <= m2.Keys
    requires forall k :: k in keys ==> m1[k].stars == m2[k].stars
    ensures StarsOver(m1, keys) == StarsOver(m2, keys)
    decreases keys
  {
    if keys != {} {
      NonEmptyHasElement(keys);
      var k :| k in keys;
      StarsOverRemove(m1, keys, k);
      StarsOverRemove(m2, keys, k);
      StarsOverSameStars(m1, m2, keys - {k});
    }
  }

  lemma {:induction false} StarsOverBounds(levels: map<int, LevelRecord>, keys: set<int>, k: int)
    requires keys <= levels.Keys
    requires forall j :: j in keys ==> levels[j].stars <= 3
    ensures StarsOver(levels, keys) <= 3 * |keys|
    ensures k in keys ==> levels[k].stars <= StarsOver(levels, keys)
    decreases keys
  {
    if keys != {} {
      NonEmptyHasElement(keys);
      var j :| j in keys;
      StarsOverRemove(levels, keys, j);
      StarsOverBounds(levels, keys - {j}, k);
    }
  }

  /** Writing one entry changes the sum by the difference of that entry's stars. */
  lemma SumStarsUpdate(levels: map<int, LevelRecord>, k: int, r: LevelRecord)
    ensures SumStars(levels[k := r])
         == SumStars(levels) - (if k in levels then levels[k].stars else 0) + r.stars
  {
    var updated := levels[k := r];
    var rest := levels.Keys - {k};
    StarsOverRemove(updated, updated.Keys, k);
    assert updated.Keys - {k} == rest;
    StarsOverSameStars(updated, levels, rest);
    if k in levels {
      StarsOverRemove(levels, levels.Keys, k);
    } else {
      assert rest == levels.Keys;
    }
  }

  lemma SumStarsOfDefault()
    ensures SumStars(DefaultProgress().levels) == 0
  {
    var levels := DefaultProgress().levels;
    StarsOverRemove(levels, levels.Keys, 1);
    assert levels.Keys - {1} == {};
  }

  /** Stars stored for a level, 0 when it has no entry; never more than the sum over all entries. */
  function GetLevelStars(p: Progress, levelId: int): (stars: nat)
    ensures levelId !in p.levels ==> stars == 0
    ensures stars <= SumStars(p.levels)
  {
    if levelId in p.levels then
      StarsOverRemove(p.levels, p.levels.Keys, levelId);
      p.levels[levelId].stars
    else 0
  }

  /**
   * The progress value after winning level `levelId` with `starsEarned` stars:
   * the level is marked completed with exactly these stars, the next level
   * (if the table has one) gets an entry if it had none, the current level
   * moves forward, and the total is recomputed.
   */
  ghost function Unlocked(p: Progress, levelId: int, starsEarned: nat): (q: Progress)
    ensures levelId in q.levels && q.levels[levelId] == LevelRecord(true, starsEarned)
    ensures q.levels.Keys == p.levels.Keys + {levelId} + (if levelId < |Levels| then {levelId + 1} else {})
    ensures forall k :: k in p.levels && k != levelId ==> q.levels[k] == p.levels[k]
    ensures levelId < |Levels| && levelId + 1 !in p.levels ==> q.levels[levelId + 1] == LevelRecord(false, 0)
    ensures levelId < |Levels| ==> IsLevelUnlocked(q, levelId + 1)
    ensures q.currentLevel >= p.currentLevel
    ensures levelId < |Levels| ==> q.currentLevel >= levelId + 1
    ensures q.currentLevel == p.currentLevel || q.currentLevel == levelId + 1
    ensures levelId >= |Levels| ==> q.currentLevel == p.currentLevel
    ensures q.totalStars == SumStars(q.levels)
    ensures q.hearts == p.hearts && q.maxHearts == p.maxHearts
  {
    var marked := p.levels[levelId := LevelRecord(true, starsEarned)];
    var levels :=
      if levelId < |Levels| && levelId + 1 !in marked then marked[levelId + 1 := LevelRecord(false, 0)]
      else marked;
    var current := if levelId < |Levels| then Max(p.currentLevel, levelId + 1) else p.currentLevel;
    p.(currentLevel := current, totalStars := SumStars(levels), levels := levels)
  }

  /** The new total is the old sum with this level's stars replaced: a replay can lower it. */
  lemma UnlockedTotalStars(p: Progress, levelId: int, starsEarned: nat)
    ensures Unlocked(p, levelId, starsEarned).totalStars
         == SumStars(p.levels) - GetLevelStars(p, levelId) + starsEarned
  {
    var marked := p.levels[levelId := LevelRecord(true, starsEarned)];
    SumStarsUpdate(p.levels, levelId, LevelRecord(true, starsEarned));
    if levelId < |Levels| && levelId + 1 !in marked {
      SumStarsUpdate(marked, levelId + 1, LevelRecord(false, 0));
    }
  }

  /** Winning a level never locks a level that was playable. */
  lemma UnlockedKeepsUnlocked(p: Progress, levelId: int, starsEarned: nat, n: int)
    requires IsLevelUnlocked(p, n)
    ensures IsLevelUnlocked(Unlocked(p, levelId, starsEarned), n)
  {
  }

  /** Winning level `levelId` makes exactly one more level playable: the one after it. */
  lemma UnlockedUnlocksExactlyNext(p: Progress, levelId: int, starsEarned: nat, n: int)
    ensures IsLevelUnlocked(Unlocked(p, levelId, starsEarned), n) <==> IsLevelUnlocked(p, n) || n == levelId + 1
  {
  }

  lemma DefaultUnlocksOnlyFirstLevel(n: int)
    ensures IsLevelUnlocked(DefaultProgress(), n) <==> n == 1
  {
  }

  /** Level 3 stays locked while level 2 has no entry or is not completed, whatever level 1's state. */
  lemma ThirdLevelNeedsSecond(p: Progress)
    requires !(2 in p.levels && p.levels[2].completed)
    ensures !IsLevelUnlocked(p, 3)
  {
  }

  /**
   * Starting from the default, winning level 1 with 2 stars unlocks level 2 and
   * gives a total of 2; winning level 1 again with 1 star lowers the total to 1.
   */
  lemma ReplayOverwritesStars()
    ensures var once := Unlocked(DefaultProgress(), 1, 2);
            && IsLevelUnlocked(once, 2) && once.levels[2] == LevelRecord(false, 0)
            && once.totalStars == 2
            && Unlocked(once, 1, 1).totalStars == 1
  {
    var once := Unlocked(DefaultProgress(), 1, 2);
    SumStarsOfDefault();
    UnlockedTotalStars(DefaultProgress(), 1, 2);
    UnlockedTotalStars(once, 1, 1);
  }

  /** The shape of every progress value the game itself produces. */
  ghost predicate Consistent(p: Progress) {
    && p.totalStars == SumStars(p.levels)
    && 1 in p.levels
    && (forall k :: k in p.levels ==> 1 <= k <= |Levels| && p.levels[k].stars <= 3)
    && 1 <= p.currentLevel <= |Levels|
  }

  lemma DefaultIsConsistent()
    ensures Consistent(DefaultProgress())
  {
    SumStarsOfDefault();
  }

  lemma UnlockedPreservesConsistency(p: Progress, levelId: int, starsEarned: nat)
    requires Consistent(p) && 1 <= levelId <= |Levels| && starsEarned <= 3
    ensures Consistent(Unlocked(p, levelId, starsEarned))
  {
  }

  /** A consistent total never exceeds three stars per level entry. */
  lemma ConsistentTotalStarsBound(p: Progress)
    requires Consistent(p)
    ensures 0 <= p.totalStars <= 3 * |p.levels|
  {
    StarsOverBounds(p.levels, p.levels.Keys, 1);
  }

  /** The level table a progress record points to; shared between shallow copies. */
  class LevelTable {
    var entries: map<int, LevelRecord>

    constructor (entries: map<int, LevelRecord>)
      ensures this.entries == entries
    {
      this.entries := entries;
    }
  }

  class PlayerProgress {
    var currentLevel: int
    var totalStars: int
    const levels: LevelTable
    var hearts: int
    var maxHearts: int

    /** A record with these fields, sharing `levels` (the object spread `{ ...progress }`). */
    constructor (currentLevel: int, totalStars: int, levels: LevelTable, hearts: int, maxHearts: int)
      ensures this.currentLevel == currentLevel && this.totalStars == totalStars && this.levels == levels
      ensures this.hearts == hearts && this.maxHearts == maxHearts
    {
      this.currentLevel := currentLevel;
      this.totalStars := totalStars;
      this.levels := levels;
      this.hearts := hearts;
      this.maxHearts := maxHearts;
    }

    function Value(): Progress
      reads this, levels
    {
      Progress(currentLevel, totalStars, levels.entries, hearts, maxHearts)
    }
  }

  /** A fresh record holding `p`, with a table of its own. */
  method NewProgress(p: Progress) returns (progress: PlayerProgress)
    ensures fresh(progress) && fresh(progress.levels) && progress.Value() == p
  {
    var table := new LevelTable(p.levels);
    progress := new PlayerProgress(p.currentLevel, p.totalStars, table, p.hearts, p.maxHearts);
  }

  method GetDefaultProgress() returns (progress: PlayerProgress)
    ensures fresh(progress) && fresh(progress.levels) && progress.Value() == DefaultProgress()
  {
    progress := NewProgress(DefaultProgress());
  }

  /**
   * Loading stored progress: `saved` is the parsed stored record, or None when
   * nothing is stored, storage is unavailable, or the stored text does not parse.
   */
  method LoadProgress(saved: Option<Progress>) returns (progress: PlayerProgress)
    ensures fresh(progress) && fresh(progress.levels)
    ensures saved.Some? ==> progress.Value() == saved.value
    ensures saved.None? ==> progress.Value() == DefaultProgress()
  {
    if saved.Some? {
      progress := NewProgress(saved.value);
    } else {
      progress := GetDefaultProgress();
    }
  }

  method ResetProgress() returns (progress: PlayerProgress)
    ensures fresh(progress) && fresh(progress.levels) && progress.Value() == DefaultProgress()
    ensures Consistent(progress.Value())
  {
    progress := GetDefaultProgress();
    DefaultIsConsistent();
  }

  /** Adds up the stars of every entry, visiting the entries one at a time. */
  method TotalStars(levels: map<int, LevelRecord>) returns (total: int)
    ensures total == SumStars(levels)
  {
    total := 0;
    var remaining := levels.Keys;
    while remaining != {}
      invariant remaining <= levels.Keys
      invariant total + StarsOver(levels, remaining) == SumStars(levels)
      decreases remaining
    {
      NonEmptyHasElement(remaining);
      var k :| k in remaining;
      StarsOverRemove(levels, remaining, k);
      total := total + levels[k].stars;
      remaining := remaining - {k};
    }
  }

  method UnlockNextLevel(progress: PlayerProgress, currentLevelId: int, starsEarned: nat)
    returns (updated: PlayerProgress)
    modifies progress.levels
    ensures fresh(updated) && updated.levels == progress.levels
    ensures updated.Value() == Unlocked(old(progress.Value()), currentLevelId, starsEarned)
    ensures unchanged(progress)
    ensures progress.Value() == old(progress.Value()).(levels := updated.levels.entries)
  {
    updated := new PlayerProgress(progress.currentLevel, progress.totalStars, progress.levels,
                                  progress.hearts, progress.maxHearts);
    var table := updated.levels;
    table.entries := table.entries[currentLevelId := LevelRecord(true, starsEarned)];
    if currentLevelId < |Levels| {
      if currentLevelId + 1 !in table.entries {
        table.entries := table.entries[currentLevelId + 1 := LevelRecord(false, 0)];
      }
      updated.currentLevel := Max(updated.currentLevel, currentLevelId + 1);
    }
    updated.totalStars := TotalStars(table.entries);
  }
}
