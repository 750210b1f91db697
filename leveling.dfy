/**
 * src/config/levelingSystem.js: the XP table, the XP needed to leave a level,
 * and the multi-level `calculateLevelUp` loop.
 */
module Leveling {
  import opened Wrappers

  const MaxLevel: int := 50

  /**
   * XP_TABLE's entries for levels 1..50, in order: the XP needed to go from
   * each level to the next, written as five rows of ten levels.
   */
  const XpEntries: seq<nat> :=
    [10, 20, 30, 50, 100, 150, 200, 300, 400, 500] +
    [700, 900, 1100, 1400, 1700, 2100, 2500, 3000, 3600, 4300] +
    [5100, 6000, 7000, 8200, 9500, 11000, 12700, 14600, 16700, 19000] +
    [21500, 24300, 27400, 30800, 34500, 38600, 43000, 47800, 53000, 58700] +
    [65000, 71800, 79300, 87500, 96500, 106300, 117000, 128700, 141500, 155500]

  /** XP_TABLE[level]: listed for levels 1..50. */
  function XpTable(level: int): Option<nat> {
    if 1 <= level <= MaxLevel then Some(XpEntries[level - 1]) else None
  }

  /** The fallback for a level the table does not list. */
  const FallbackXp: nat := 100

  /**
   * getXpForNextLevel: the level-50 entry from 50 up, else the table entry,
   * else the fallback (no entry is 0, so `|| 100` never replaces one).
   */
  function XpForNextLevel(level: int): (xp: nat)
    ensures xp > 0
  {
    if level >= MaxLevel then 155500 else TableOr(level)
  }

  /** XP_TABLE[level] || 100, for a level below 50. */
  function TableOr(level: int): (xp: nat)
    ensures xp > 0
  {
    match XpTable(level)
    case Some(v) => if v == 0 then FallbackXp else v
    case None => FallbackXp
  }

  /** Each row of the table, checked entry by entry. */
  lemma RowAscends0(i: int)
    requires 0 <= i < 10
    ensures 0 < XpEntries[i] < XpEntries[i + 1]
  {
    match i
    case 0 =>
    case 1 =>
    case 2 =>
    case 3 =>
    case 4 =>
    case 5 =>
    case 6 =>
    case 7 =>
    case 8 =>
    case 9 =>
  }

  lemma RowAscends1(i: int)
    requires 10 <= i < 20
    ensures 0 < XpEntries[i] < XpEntries[i + 1]
  {
    match i
    case 10 =>
    case 11 =>
    case 12 =>
    case 13 =>
    case 14 =>
    case 15 =>
    case 16 =>
    case 17 =>
    case 18 =>
    case 19 =>
  }

  lemma RowAscends2(i: int)
    requires 20 <= i < 30
    ensures 0 < XpEntries[i] < XpEntries[i + 1]
  {
    match i
    case 20 =>
    case 21 =>
    case 22 =>
    case 23 =>
    case 24 =>
    case 25 =>
    case 26 =>
    case 27 =>
    case 28 =>
    case 29 =>
  }

  lemma RowAscends3(i: int)
    requires 30 <= i < 40
    ensures 0 < XpEntries[i] < XpEntries[i + 1]
  {
    match i
    case 30 =>
    case 31 =>
    case 32 =>
    case 33 =>
    case 34 =>
    case 35 =>
    case 36 =>
    case 37 =>
    case 38 =>
    case 39 =>
  }

  lemma RowAscends4(i: int)
    requires 40 <= i < 49
    ensures 0 < XpEntries[i] < XpEntries[i + 1]
  {
    match i
    case 40 =>
    case 41 =>
    case 42 =>
    case 43 =>
    case 44 =>
    case 45 =>
    case 46 =>
    case 47 =>
    case 48 =>
  }

  lemma EntriesAscend()
    ensures |XpEntries| == MaxLevel
    ensures forall i | 0 <= i < |XpEntries| - 1 :: 0 < XpEntries[i] < XpEntries[i + 1]
  {
    forall i | 0 <= i < |XpEntries| - 1
      ensures 0 < XpEntries[i] < XpEntries[i + 1]
    {
      if i < 10 { RowAscends0(i); }
      else if i < 20 { RowAscends1(i); }
      else if i < 30 { RowAscends2(i); }
      else if i < 40 { RowAscends3(i); }
      else { RowAscends4(i); }
    }
  }

  /** The table lists exactly levels 1..50, with positive, strictly increasing entries. */
  lemma XpTableIncreasing()
    ensures forall l :: XpTable(l).Some? <==> 1 <= l <= MaxLevel
    ensures forall l | 1 <= l <= MaxLevel :: XpTable(l).value > 0
    ensures forall l | 1 <= l < MaxLevel :: XpTable(l).value < XpTable(l + 1).value
  {
    EntriesAscend();
    assert XpEntries[MaxLevel - 2] > 0;
  }

  /** The three cases of getXpForNextLevel. */
  lemma XpForNextLevelCases(level: int)
    ensures level >= 50 ==> XpForNextLevel(level) == XpTable(50).value == 155500
    ensures 1 <= level < 50 ==> XpForNextLevel(level) == XpTable(level).value
    ensures level < 1 ==> XpForNextLevel(level) == 100
  {
  }

  /**
   * The XP needed to climb from level `from` to level `to` when level `l`
   * costs `need(l)`: the sum of `need(l)` for `from <= l < to`.
   */
  function CostBetween(need: int -> nat, from: int, to: int): nat
    decreases to - from
  {
    if from >= to then 0 else need(from) + CostBetween(need, from + 1, to)
  }

  /**
   * The loop of calculateLevelUp as a recursion, for any cost per level
   * `need`: spend XP on levels while it suffices, below 50.
   */
  function Advance(need: int -> nat, level: int, xp: int): (int, int)
    decreases MaxLevel - level
  {
    if xp >= need(level) && level < MaxLevel
    then Advance(need, level + 1, xp - need(level))
    else (level, xp)
  }

  datatype LevelUpResult = LevelUpResult(newLevel: int, remainingXp: int, xpToNextLevel: nat)

  /** calculateLevelUp's result, climbing with the XP table; the XP is reset to 0 at the cap. */
  function LevelUp(currentLevel: int, currentXp: int, xpGained: int): LevelUpResult {
    var (level, xp) := Advance(XpForNextLevel, currentLevel, currentXp + xpGained);
    LevelUpResult(level, if level >= MaxLevel then 0 else xp, XpForNextLevel(level))
  }

  /** One turn of the loop: a level is bought while the XP pays for it below 50, and the climb stops otherwise. */
  lemma AdvanceStep(need: int -> nat, level: int, xp: int)
    ensures xp >= need(level) && level < MaxLevel ==>
      Advance(need, level, xp) == Advance(need, level + 1, xp - need(level))
    ensures !(xp >= need(level) && level < MaxLevel) ==> Advance(need, level, xp) == (level, xp)
  {
  }

  /** Where the climb stops decides the result. */
  lemma LevelUpOfStop(currentLevel: int, currentXp: int, xpGained: int, level: int, xp: int)
    requires Advance(XpForNextLevel, currentLevel, currentXp + xpGained) == (level, xp)
    ensures LevelUp(currentLevel, currentXp, xpGained) == LevelUpResult(level, if level >= 50 then 0 else xp, XpForNextLevel(level))
  {
  }

  /**
   * The while loop of calculateLevelUp over `level`, `xp` and `xpNeeded`,
   * for any cost per level: it ends where the climb ends.
   */
  method Climb(need: int -> nat, startLevel: int, startXp: int) returns (level: int, xp: int)
    ensures (level, xp) == Advance(need, startLevel, startXp)
  {
    level := startLevel;
    xp := startXp;
    var xpNeeded := need(level);
    while xp >= xpNeeded && level < 50
      invariant xpNeeded == need(level)
      invariant Advance(need, level, xp) == Advance(need, startLevel, startXp)
      decreases MaxLevel - level
    {
      xp := xp - xpNeeded;
      level := level + 1;
      xpNeeded := need(level);
    }
    AdvanceStep(need, level, xp);
  }

  /** calculateLevelUp: the loop run on the XP table, then the result with the XP reset at the cap. */
  method CalculateLevelUp(currentLevel: int, currentXp: int, xpGained: int) returns (r: LevelUpResult)
    ensures r == LevelUp(currentLevel, currentXp, xpGained)
  {
    var level, xp := Climb(XpForNextLevel, currentLevel, currentXp + xpGained);
    var xpNeeded := XpForNextLevel(level);
    LevelUpOfStop(currentLevel, currentXp, xpGained, level, xp);
    r := LevelUpResult(level, if level >= 50 then 0 else xp, xpNeeded);
  }

  // ---- Properties of the recursion, for any cost per level ----

  /** The level never drops, and never climbs past 50 (a level already above 50 is kept). */
  lemma {:induction false} AdvanceBounds(need: int -> nat, level: int, xp: int)
    ensures level <= Advance(need, level, xp).0
    ensures Advance(need, level, xp).0 <= if level >= MaxLevel then level else MaxLevel
    decreases MaxLevel - level
  {
    if xp >= need(level) && level < MaxLevel {
      AdvanceBounds(need, level + 1, xp - need(level));
    }
  }

  /** Nothing is lost: the XP left plus the cost of the levels climbed is the XP spent. */
  lemma {:induction false} AdvanceConserves(need: int -> nat, level: int, xp: int)
    ensures xp == Advance(need, level, xp).1 + CostBetween(need, level, Advance(need, level, xp).0)
    decreases MaxLevel - level
  {
    if xp >= need(level) && level < MaxLevel {
      AdvanceConserves(need, level + 1, xp - need(level));
      AdvanceBounds(need, level + 1, xp - need(level));
    }
  }

  /** Below the cap the loop stops only when the XP left cannot pay for the next level. */
  lemma {:induction false} AdvanceStopsShort(need: int -> nat, level: int, xp: int)
    ensures var (l, x) := Advance(need, level, xp); l < MaxLevel ==> x < need(l)
    decreases MaxLevel - level
  {
    if xp >= need(level) && level < MaxLevel {
      AdvanceStopsShort(need, level + 1, xp - need(level));
    }
  }

  /** Every level climbed was paid for out of the XP available. */
  lemma {:induction false} AdvancePaysEachLevel(need: int -> nat, level: int, xp: int, l: int)
    requires level <= l < Advance(need, level, xp).0
    ensures CostBetween(need, level, l + 1) <= xp
    decreases MaxLevel - level
  {
    if xp >= need(level) && level < MaxLevel {
      if l > level {
        AdvancePaysEachLevel(need, level + 1, xp - need(level), l);
      }
    }
  }

  /** The promises of calculateLevelUp, stated on its result. */
  lemma LevelUpProperties(currentLevel: int, currentXp: int, xpGained: int)
    ensures var r := LevelUp(currentLevel, currentXp, xpGained);
      && currentLevel <= r.newLevel
      && r.newLevel <= (if currentLevel >= MaxLevel then currentLevel else MaxLevel)
      && r.xpToNextLevel == XpForNextLevel(r.newLevel)
      && (r.newLevel >= MaxLevel ==> r.remainingXp == 0)
      && (r.newLevel < MaxLevel ==> r.remainingXp < r.xpToNextLevel)
      && (r.newLevel < MaxLevel ==>
            currentXp + xpGained == r.remainingXp + CostBetween(XpForNextLevel, currentLevel, r.newLevel))
      && (forall l | currentLevel < l <= r.newLevel :: CostBetween(XpForNextLevel, currentLevel, l) <= currentXp + xpGained)
  {
    var total := currentXp + xpGained;
    AdvanceBounds(XpForNextLevel, currentLevel, total);
    AdvanceConserves(XpForNextLevel, currentLevel, total);
    AdvanceStopsShort(XpForNextLevel, currentLevel, total);
    forall l | currentLevel < l <= Advance(XpForNextLevel, currentLevel, total).0
      ensures CostBetween(XpForNextLevel, currentLevel, l) <= total
    {
      AdvancePaysEachLevel(XpForNextLevel, currentLevel, total, l - 1);
    }
  }

  /** A fresh level-1 character with 0 XP who earns 10 reaches level 2 with 0 XP and needs 20 next. */
  lemma FirstLevelUp()
    ensures LevelUp(1, 0, 10) == LevelUpResult(2, 0, 20)
    ensures LevelUp(1, 0, 9) == LevelUpResult(1, 9, 10)
  {
  }
}
