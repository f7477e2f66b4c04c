/** The leveling function `calculateLevel` (src/context/AppContext.tsx):
    total XP to level, title, progress within the level and XP still needed. */
module Leveling {
  import opened Types
  import opened Gamification

  datatype LevelProgress = LevelProgress(level: int, title: string, progress: real, xpToNext: int)

  /** Thresholds strictly increase down the table. */
  predicate Ascending(levels: seq<LevelEntry>)
  {
    forall i, j :: 0 <= i < j < |levels| ==> levels[i].minXP < levels[j].minXP
  }

  /** Reference definition of the current table row: searching down from
      row i, the last row whose threshold is at most `xp`; row 0 when none is. */
  function IndexFrom(levels: seq<LevelEntry>, xp: int, i: nat): (k: nat)
    requires i < |levels|
    ensures k <= i
    ensures k > 0 ==> levels[k].minXP <= xp
    ensures forall j :: k < j <= i ==> xp < levels[j].minXP
  {
    if i == 0 || levels[i].minXP <= xp then i else IndexFrom(levels, xp, i - 1)
  }

  /** Level information for `xp` described through row i and the row above
      it (the same row at the top of the table). */
  function RowProgress(levels: seq<LevelEntry>, xp: int, i: nat): LevelProgress
    requires i < |levels|
  {
    var current := levels[i];
    var next := if i + 1 < |levels| then levels[i + 1] else levels[i];
    var needed := next.minXP - current.minXP;
    LevelProgress(
      current.level,
      current.title,
      if needed > 0 then (xp - current.minXP) as real / needed as real else 1.0,
      next.minXP - xp)
  }

  function LevelIndex(xp: int): (k: nat)
    ensures k < |Levels|
  {
    IndexFrom(Levels, xp, |Levels| - 1)
  }

  /** The level information the source promises for `xp`: that of the
      current row of the game's level table. */
  function LevelOf(xp: int): LevelProgress
  {
    RowProgress(Levels, xp, LevelIndex(xp))
  }

  /** calculateLevel on the game's level table. */
  method CalculateLevel(xp: int) returns (r: LevelProgress)
    ensures r == LevelOf(xp)
  {
    LevelsWellFormed();
    r := ScanLevels(Levels, xp);
  }

  /** The loop of calculateLevel over an ascending table of at least two
      rows: a forward scan that keeps the last accepted row and its
      successor and stops at the first threshold above `xp`. */
  method ScanLevels(levels: seq<LevelEntry>, xp: int) returns (r: LevelProgress)
    requires |levels| >= 2 && Ascending(levels)
    ensures r == RowProgress(levels, xp, IndexFrom(levels, xp, |levels| - 1))
  {
    var currentLevel := levels[0];
    var nextLevel := levels[1];
    ghost var cur := 0;
    var i := 0;
    while i < |levels|
      invariant 0 <= i <= |levels|
      invariant forall j :: 0 <= j < i ==> levels[j].minXP <= xp
      invariant cur == if i == 0 then 0 else i - 1
      invariant currentLevel == levels[cur]
      invariant nextLevel == if cur + 1 < |levels| then levels[cur + 1] else levels[cur]
    {
      if xp >= levels[i].minXP {
        currentLevel := levels[i];
        nextLevel := if i + 1 < |levels| then levels[i + 1] else levels[i];
        cur := i;
      } else {
        break;
      }
      i := i + 1;
    }
    ScanStopsAtRow(levels, xp, i);
    var xpInCurrentLevel := xp - currentLevel.minXP;
    var xpNeededForNext := nextLevel.minXP - currentLevel.minXP;
    var progress := if xpNeededForNext > 0 then xpInCurrentLevel as real / xpNeededForNext as real else 1.0;
    r := LevelProgress(currentLevel.level, currentLevel.title, progress, nextLevel.minXP - xp);
  }

  /** Where the forward scan stops decides the row: when the rows before i
      are reached and row i (if any) is not, the current row is i - 1, or
      row 0 when i is 0. */
  lemma ScanStopsAtRow(levels: seq<LevelEntry>, xp: int, i: nat)
    requires |levels| >= 1 && Ascending(levels) && i <= |levels|
    requires forall j :: 0 <= j < i ==> levels[j].minXP <= xp
    requires i < |levels| ==> xp < levels[i].minXP
    ensures IndexFrom(levels, xp, |levels| - 1) == if i == 0 then 0 else i - 1
  {
    var k := if i == 0 then 0 else i - 1;
    assert forall j :: k < j < |levels| ==> xp < levels[j].minXP by {
      forall j | k < j < |levels| ensures xp < levels[j].minXP {
        if j > i {
          assert levels[i].minXP < levels[j].minXP;
        }
      }
    }
    IndexFromIs(levels, xp, |levels| - 1, k);
  }

  /** The downward search from row i stops exactly at a row k that is
      reached (or is row 0) when every row between k and i lies above xp. */
  lemma {:induction false} IndexFromIs(levels: seq<LevelEntry>, xp: int, i: nat, k: nat)
    requires k <= i < |levels|
    requires k == 0 || levels[k].minXP <= xp
    requires forall j :: k < j <= i ==> xp < levels[j].minXP
    ensures IndexFrom(levels, xp, i) == k
    decreases i
  {
    if i > k {
      IndexFromIs(levels, xp, i - 1, k);
    }
  }

  /** For xp >= 0 the level is that of the last row whose threshold is at
      most xp: that row is reached and the next one is not. */
  lemma LevelIsLastReachedRow(xp: int)
    requires xp >= 0
    ensures var i := LevelIndex(xp);
      Levels[i].minXP <= xp && (i + 1 < |Levels| ==> xp < Levels[i + 1].minXP)
      && LevelOf(xp).level == Levels[i].level && LevelOf(xp).title == Levels[i].title
  {
    LevelsWellFormed();
  }

  /** The level never decreases as XP grows. */
  lemma LevelMonotone(x: int, y: int)
    requires 0 <= x <= y
    ensures LevelOf(x).level <= LevelOf(y).level
  {
    LevelsWellFormed();
  }

  /** Below the top threshold, progress lies in [0, 1) and XP is still needed. */
  lemma BelowTopBounds(xp: int)
    requires 0 <= xp < MaxLevelXP
    ensures LevelIndex(xp) + 1 < |Levels|
    ensures var i := LevelIndex(xp);
      LevelOf(xp).progress == (xp - Levels[i].minXP) as real / (Levels[i + 1].minXP - Levels[i].minXP) as real
    ensures 0.0 <= LevelOf(xp).progress < 1.0
    ensures LevelOf(xp).xpToNext > 0
  {
    LevelsWellFormed();
    var i := LevelIndex(xp);
    assert i + 1 < |Levels|;
    RowBelowTop(Levels, xp, i);
  }

  /** On a row whose threshold is reached while the next one is not, the
      progress is the exact ratio, lies in [0, 1), and XP is still needed. */
  lemma RowBelowTop(levels: seq<LevelEntry>, xp: int, i: nat)
    requires i + 1 < |levels| && levels[i].minXP <= xp < levels[i + 1].minXP
    ensures RowProgress(levels, xp, i).progress
         == (xp - levels[i].minXP) as real / (levels[i + 1].minXP - levels[i].minXP) as real
    ensures 0.0 <= RowProgress(levels, xp, i).progress < 1.0
    ensures RowProgress(levels, xp, i).xpToNext > 0
  {
    var lo, hi := levels[i].minXP, levels[i + 1].minXP;
    RatioBelowOne((xp - lo) as real, (hi - lo) as real);
  }

  lemma RatioBelowOne(a: real, b: real)
    requires 0.0 <= a < b
    ensures 0.0 <= a / b < 1.0
  {
  }

  /** At or above the top threshold: level 12, full progress, nothing left to earn. */
  lemma AtTopBounds(xp: int)
    requires xp >= MaxLevelXP
    ensures LevelOf(xp).level == 12 && LevelOf(xp).title == "Immortal"
    ensures LevelOf(xp).progress == 1.0
    ensures LevelOf(xp).xpToNext <= 0
  {
    LevelsWellFormed();
  }

  /** A fresh user with 0 XP is a level 1 Beginner with 100 XP to go. */
  lemma LevelOfZero()
    ensures LevelOf(0) == LevelProgress(1, "Beginner", 0.0, 100)
  {
    LevelsWellFormed();
    assert LevelIndex(0) == 0;
    assert Levels[0] == LevelEntry(1, 0, "Beginner");
    assert Levels[1].minXP == 100;
    assert LevelOf(0).progress == 0.0;
  }
}
