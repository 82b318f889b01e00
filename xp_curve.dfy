/**
 * The level curve and reward constants of the progression system:
 * the linear per-level cost, the cumulative cost of reaching a level, its
 * inverse, the 100-row title table with its tiers, and the XP multipliers.
 */
module XpCurve {

  // ------------------------------------------------------------------
  // Level titles
  // ------------------------------------------------------------------

  datatype Tier = Beginner | Intermediate | Advanced | Elite | Cosmic | God

  /**
   * One row of the title table. Titles and emoji are display configuration and are
   * not reproduced: `row` names the table row whose title and emoji are shown.
   */
  datatype LevelInfo = LevelInfo(row: nat, tier: Tier)

  /** Levels 1..10. */
  const BeginnerRows: seq<LevelInfo> := [
      LevelInfo(1, Beginner),
      LevelInfo(2, Beginner),
      LevelInfo(3, Beginner),
      LevelInfo(4, Beginner),
      LevelInfo(5, Beginner),
      LevelInfo(6, Beginner),
      LevelInfo(7, Beginner),
      LevelInfo(8, Beginner),
      LevelInfo(9, Beginner),
      LevelInfo(10, Beginner)
    ]

  /** Levels 11..25. */
  const IntermediateRows: seq<LevelInfo> := [
      LevelInfo(11, Intermediate),
      LevelInfo(12, Intermediate),
      LevelInfo(13, Intermediate),
      LevelInfo(14, Intermediate),
      LevelInfo(15, Intermediate),
      LevelInfo(16, Intermediate),
      LevelInfo(17, Intermediate),
      LevelInfo(18, Intermediate),
      LevelInfo(19, Intermediate),
      LevelInfo(20, Intermediate),
      LevelInfo(21, Intermediate),
      LevelInfo(22, Intermediate),
      LevelInfo(23, Intermediate),
      LevelInfo(24, Intermediate),
      LevelInfo(25, Intermediate)
    ]

  /** Levels 26..40. */
  const AdvancedRows: seq<LevelInfo> := [
      LevelInfo(26, Advanced),
      LevelInfo(27, Advanced),
      LevelInfo(28, Advanced),
      LevelInfo(29, Advanced),
      LevelInfo(30, Advanced),
      LevelInfo(31, Advanced),
      LevelInfo(32, Advanced),
      LevelInfo(33, Advanced),
      LevelInfo(34, Advanced),
      LevelInfo(35, Advanced),
      LevelInfo(36, Advanced),
      LevelInfo(37, Advanced),
      LevelInfo(38, Advanced),
      LevelInfo(39, Advanced),
      LevelInfo(40, Advanced)
    ]

  /** Levels 41..50. */
  const EliteRows: seq<LevelInfo> := [
      LevelInfo(41, Elite),
      LevelInfo(42, Elite),
      LevelInfo(43, Elite),
      LevelInfo(44, Elite),
      LevelInfo(45, Elite),
      LevelInfo(46, Elite),
      LevelInfo(47, Elite),
      LevelInfo(48, Elite),
      LevelInfo(49, Elite),
      LevelInfo(50, Elite)
    ]

  /** Levels 51..70. */
  const CosmicRows: seq<LevelInfo> := [
      LevelInfo(51, Cosmic),
      LevelInfo(52, Cosmic),
      LevelInfo(53, Cosmic),
      LevelInfo(54, Cosmic),
      LevelInfo(55, Cosmic),
      LevelInfo(56, Cosmic),
      LevelInfo(57, Cosmic),
      LevelInfo(58, Cosmic),
      LevelInfo(59, Cosmic),
      LevelInfo(60, Cosmic),
      LevelInfo(61, Cosmic),
      LevelInfo(62, Cosmic),
      LevelInfo(63, Cosmic),
      LevelInfo(64, Cosmic),
      LevelInfo(65, Cosmic),
      LevelInfo(66, Cosmic),
      LevelInfo(67, Cosmic),
      LevelInfo(68, Cosmic),
      LevelInfo(69, Cosmic),
      LevelInfo(70, Cosmic)
    ]

  /** Levels 71..100. */
  const GodRows: seq<LevelInfo> := [
      LevelInfo(71, God),
      LevelInfo(72, God),
      LevelInfo(73, God),
      LevelInfo(74, God),
      LevelInfo(75, God),
      LevelInfo(76, God),
      LevelInfo(77, God),
      LevelInfo(78, God),
      LevelInfo(79, God),
      LevelInfo(80, God),
      LevelInfo(81, God),
      LevelInfo(82, God),
      LevelInfo(83, God),
      LevelInfo(84, God),
      LevelInfo(85, God),
      LevelInfo(86, God),
      LevelInfo(87, God),
      LevelInfo(88, God),
      LevelInfo(89, God),
      LevelInfo(90, God),
      LevelInfo(91, God),
      LevelInfo(92, God),
      LevelInfo(93, God),
      LevelInfo(94, God),
      LevelInfo(95, God),
      LevelInfo(96, God),
      LevelInfo(97, God),
      LevelInfo(98, God),
      LevelInfo(99, God),
      LevelInfo(100, God)
    ]

  /** The title table for levels 1..100, tier by tier; row k - 1 describes level k. */
  const LevelTitles: seq<LevelInfo> :=
    BeginnerRows + IntermediateRows + AdvancedRows + EliteRows + CosmicRows + GodRows

  /** The tier breakpoints the title table follows. */
  function TierOfLevel(level: int): Tier
  {
    if level <= 10 then Beginner
    else if level <= 25 then Intermediate
    else if level <= 40 then Advanced
    else if level <= 50 then Elite
    else if level <= 70 then Cosmic
    else God
  }

  /** The rows of `block` describe consecutive levels from `first` on, all of tier `tier`. */
  ghost predicate BlockDescribes(block: seq<LevelInfo>, first: int, tier: Tier)
  {
    forall i :: 0 <= i < |block| ==> block[i].row == first + i && block[i].tier == tier
  }

  // Each tier block holds the levels and the tier the breakpoints give it.

  lemma BeginnerBlockFollowsBreakpoints()
    ensures |BeginnerRows| == 10 && BlockDescribes(BeginnerRows, 1, Beginner)
  {
  }

  lemma IntermediateBlockFollowsBreakpoints()
    ensures |IntermediateRows| == 15 && BlockDescribes(IntermediateRows, 11, Intermediate)
  {
  }

  lemma AdvancedBlockFollowsBreakpoints()
    ensures |AdvancedRows| == 15 && BlockDescribes(AdvancedRows, 26, Advanced)
  {
  }

  lemma EliteBlockFollowsBreakpoints()
    ensures |EliteRows| == 10 && BlockDescribes(EliteRows, 41, Elite)
  {
  }

  lemma CosmicBlockFollowsBreakpoints()
    ensures |CosmicRows| == 20 && BlockDescribes(CosmicRows, 51, Cosmic)
  {
  }

  lemma GodBlockFollowsBreakpoints()
    ensures |GodRows| == 30 && BlockDescribes(GodRows, 71, God)
  {
  }

  /** Every row of the title table describes its own level and carries the breakpoint tier. */
  lemma TitleTableFollowsBreakpoints()
    ensures |LevelTitles| == 100
    ensures forall i :: 0 <= i < 100 ==>
      LevelTitles[i].row == i + 1 && LevelTitles[i].tier == TierOfLevel(i + 1)
  {
    BeginnerBlockFollowsBreakpoints();
    IntermediateBlockFollowsBreakpoints();
    AdvancedBlockFollowsBreakpoints();
    EliteBlockFollowsBreakpoints();
    CosmicBlockFollowsBreakpoints();
    GodBlockFollowsBreakpoints();
    forall i | 0 <= i < 100
      ensures LevelTitles[i].row == i + 1 && LevelTitles[i].tier == TierOfLevel(i + 1)
    {
      if i < 10 {
        assert LevelTitles[i] == BeginnerRows[i];
      } else if i < 25 {
        assert LevelTitles[i] == IntermediateRows[i - 10];
      } else if i < 40 {
        assert LevelTitles[i] == AdvancedRows[i - 25];
      } else if i < 50 {
        assert LevelTitles[i] == EliteRows[i - 40];
      } else if i < 70 {
        assert LevelTitles[i] == CosmicRows[i - 50];
      } else {
        assert LevelTitles[i] == GodRows[i - 70];
      }
    }
  }

  /** `Math.max(1, Math.min(100, level))`. */
  function ClampLevel(level: int): (c: int)
    ensures 1 <= c <= 100
    ensures 1 <= level <= 100 ==> c == level
    ensures level < 1 ==> c == 1
    ensures level > 100 ==> c == 100
  {
    if level < 1 then 1 else if level > 100 then 100 else level
  }

  /** `getLevelInfo`: the table row of the clamped level. */
  function GetLevelInfo(level: int): (info: LevelInfo)
    ensures info in LevelTitles
    ensures info.row == ClampLevel(level)
    ensures info.tier == TierOfLevel(ClampLevel(level))
  {
    TitleTableFollowsBreakpoints();
    LevelTitles[ClampLevel(level) - 1]
  }

  // ------------------------------------------------------------------
  // Level progression formula
  // ------------------------------------------------------------------

  /** `getXPForLevel`: the XP a user at `level` must earn to reach the next level. */
  function XPForLevel(level: int): int
  {
    level * 100
  }

  /** The per-level cost grows strictly with the level. */
  lemma XPForLevelIncreasing(a: int, b: int)
    requires a < b
    ensures XPForLevel(a) < XPForLevel(b)
    ensures a >= 1 ==> XPForLevel(a) >= 100
  {
  }

  /** The XP needed to climb from level 1 to `target`: the sum of XPForLevel(i) for 1 <= i < target. */
  function CumulativeXP(target: int): (total: int)
    ensures total >= 0
    decreases target
  {
    if target <= 1 then 0 else CumulativeXP(target - 1) + XPForLevel(target - 1)
  }

  /** The cumulative cost in closed form: 100 + 200 + ... + 100(n-1) = 50 n (n-1). */
  lemma {:induction false} CumulativeXPClosedForm(n: int)
    requires n >= 0
    ensures CumulativeXP(n) == 50 * n * (n - 1)
    decreases n
  {
    if n > 1 {
      CumulativeXPClosedForm(n - 1);
      assert 50 * (n - 1) * (n - 2) + 100 * (n - 1) == 50 * n * (n - 1);
    }
  }

  /** Reaching a higher level costs at least the full cost of every level passed on the way. */
  lemma {:induction false} CumulativeXPGrows(a: int, b: int)
    requires 1 <= a < b
    ensures CumulativeXP(b) >= CumulativeXP(a) + XPForLevel(a)
    decreases b
  {
    if b > a + 1 {
      CumulativeXPGrows(a, b - 1);
    }
  }

  /** `getTotalXPForLevel`: the loop that sums the per-level costs below `targetLevel`. */
  method TotalXPForLevel(targetLevel: int) returns (total: int)
    ensures total == CumulativeXP(targetLevel)
    ensures targetLevel <= 1 ==> total == 0
    ensures targetLevel >= 1 ==> total == 50 * targetLevel * (targetLevel - 1)
  {
    total := 0;
    var i := 1;
    while i < targetLevel
      invariant 1 <= i
      invariant i <= targetLevel || i == 1
      invariant total == CumulativeXP(i)
    {
      total := total + XPForLevel(i);
      i := i + 1;
    }
    if targetLevel >= 1 {
      CumulativeXPClosedForm(targetLevel);
    }
  }

  /**
   * `totalXP` lifetime XP puts a user at `level` with `currentXP` earned toward the
   * next level: the levels below are fully paid and the current one is not.
   */
  ghost predicate SplitsAt(totalXP: int, level: int, currentXP: int)
  {
    level >= 1 && 0 <= currentXP < XPForLevel(level) && CumulativeXP(level) + currentXP == totalXP
  }

  /** A lifetime total determines the level and the progress within it. */
  lemma SplitIsUnique(totalXP: int, level1: int, current1: int, level2: int, current2: int)
    requires SplitsAt(totalXP, level1, current1)
    requires SplitsAt(totalXP, level2, current2)
    ensures level1 == level2 && current1 == current2
  {
    if level1 < level2 {
      CumulativeXPGrows(level1, level2);
    } else if level2 < level1 {
      CumulativeXPGrows(level2, level1);
    }
  }

  /** The result of `getLevelFromXP`. */
  datatype LevelProgress = LevelProgress(level: int, currentXP: int, xpForNextLevel: int)

  /**
   * `getLevelFromXP`: start at level 1 and pay each level's cost out of the total
   * while the remainder covers it. A negative total pays nothing.
   */
  method LevelFromXP(totalXP: int) returns (p: LevelProgress)
    ensures p.level >= 1
    ensures p.xpForNextLevel == XPForLevel(p.level)
    ensures p.currentXP < XPForLevel(p.level)
    ensures CumulativeXP(p.level) + p.currentXP == totalXP
    ensures totalXP >= 0 ==> SplitsAt(totalXP, p.level, p.currentXP)
    ensures totalXP < 0 ==> p.level == 1 && p.currentXP == totalXP
  {
    var level := 1;
    var xpRemaining := totalXP;
    while xpRemaining >= XPForLevel(level)
      invariant level >= 1
      invariant CumulativeXP(level) + xpRemaining == totalXP
      invariant totalXP >= 0 ==> xpRemaining >= 0
      invariant totalXP < 0 ==> level == 1 && xpRemaining == totalXP
      decreases xpRemaining
    {
      xpRemaining := xpRemaining - XPForLevel(level);
      level := level + 1;
    }
    p := LevelProgress(level, xpRemaining, XPForLevel(level));
  }

  /** Round trip: the cumulative cost of level n splits as exactly level n with no progress. */
  lemma LevelOfCumulativeXP(n: int, level: int, currentXP: int)
    requires n >= 1
    requires SplitsAt(CumulativeXP(n), level, currentXP)
    ensures level == n && currentXP == 0
  {
    assert SplitsAt(CumulativeXP(n), n, 0);
    SplitIsUnique(CumulativeXP(n), level, currentXP, n, 0);
  }

  /** 5000 lifetime XP is level 10 with 500 XP toward level 11 (4500 pays for levels 1..9). */
  lemma FiveThousandXPIsLevelTen(level: int, currentXP: int)
    requires SplitsAt(5000, level, currentXP)
    ensures level == 10 && currentXP == 500
  {
    CumulativeXPClosedForm(10);
    SplitIsUnique(5000, level, currentXP, 10, 500);
  }

  // ------------------------------------------------------------------
  // XP multipliers
  // ------------------------------------------------------------------

  type Positive = n: int | n > 0 witness 1

  /** A multiplier as an exact fraction numerator / denominator (1.5 is 3/2). */
  datatype Multiplier = Multiplier(numerator: int, denominator: Positive)

  const Premium: Multiplier := Multiplier(3, 2)

  /**
   * `getStreakMultiplier`: 10% more per full week of streak, at most double; in tenths,
   * min(10 + floor(streakDays / 7), 20).
   */
  function StreakMultiplier(streakDays: int): (m: Multiplier)
    ensures m.denominator == 10
    ensures m.numerator <= 20
    ensures streakDays >= 0 ==> m.numerator >= 10
    ensures streakDays >= 70 ==> m.numerator == 20
    ensures streakDays < 70 ==> m.numerator == 10 + streakDays / 7
  {
    var weeks := streakDays / 7;
    Multiplier(if 10 + weeks < 20 then 10 + weeks else 20, 10)
  }

  /** A longer streak never lowers the multiplier. */
  lemma StreakMultiplierMonotone(a: int, b: int)
    requires a <= b
    ensures StreakMultiplier(a).numerator <= StreakMultiplier(b).numerator
  {
  }

  /** `isLevelMilestone`: every tenth level, from level 10 on. */
  predicate IsLevelMilestone(level: int)
  {
    level > 0 && level % 10 == 0
  }

  /** Milestones are exactly the positive multiples of ten. */
  lemma MilestonesEveryTenLevels(level: int)
    ensures IsLevelMilestone(level) <==> exists k :: k >= 1 && level == 10 * k
  {
    if IsLevelMilestone(level) {
      assert level == 10 * (level / 10);
    }
  }
}
