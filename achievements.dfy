/**
 * The achievements slice: the XP ledger with its level-up loop, the badge
 * unlock tracker, per-day per-source XP bookkeeping and achievement progress.
 * "Today" and "now" are parameters instead of clock reads.
 */
module Achievements {
  import opened Wrappers
  import opened XpCurve

  /** A calendar date as `toISOString().split('T')[0]` gives it. */
  type Date = string
  /** An instant as `toISOString()` gives it. */
  type Timestamp = string
  /** The reward-source tag an XP grant carries. */
  type Source = string

  /** The payload of `unlockAchievement`; `xp` 0 stands for a missing or zero bonus. */
  datatype Achievement = Achievement(id: string, xp: int)

  /** An entry of `recentUnlocks`: the achievement and when it was unlocked. */
  datatype RecentUnlock = RecentUnlock(achievement: Achievement, unlockedAt: Timestamp)

  /** An entry of `achievements`: an achievement id and its progress. */
  datatype TrackedAchievement = TrackedAchievement(id: string, progress: int)

  /** Every field of the slice at one moment, for saying what a reducer leaves alone. */
  datatype Slice = Slice(
    level: int,
    currentXP: int,
    totalXP: int,
    achievements: seq<TrackedAchievement>,
    unlockedBadges: seq<string>,
    recentUnlocks: seq<RecentUnlock>,
    lastLevelUp: Option<Timestamp>,
    dailyXPEarned: map<Date, map<Source, int>>,
    levelTitle: nat,
    levelEmoji: nat,
    levelTier: Tier)

  predicate NoDuplicates<T(==)>(s: seq<T>)
  {
    forall i, j :: 0 <= i < j < |s| ==> s[i] != s[j]
  }

  /** `Math.floor(amount * multiplier)` with the multiplier as an exact fraction. */
  function FloorMultiply(amount: int, m: Multiplier): (xp: int)
    ensures amount >= 0 && m.numerator >= 0 ==> xp >= 0
  {
    (amount * m.numerator) / m.denominator
  }

  /** FloorMultiply is the floor of the exact product: the largest xp with xp <= amount * m. */
  lemma FloorMultiplyIsFloor(amount: int, m: Multiplier)
    ensures FloorMultiply(amount, m) * m.denominator <= amount * m.numerator
    ensures amount * m.numerator < (FloorMultiply(amount, m) + 1) * m.denominator
  {
  }

  /**
   * The XP `addXP` grants: the amount scaled by the multiplier when the caller asks
   * for it and supplies a non-zero one, and the amount itself otherwise.
   */
  function XPToAdd(amount: int, applyMultiplier: bool, multiplier: Option<Multiplier>): (xp: int)
    ensures !applyMultiplier || multiplier.None? ==> xp == amount
    ensures applyMultiplier && multiplier.Some? && multiplier.value.numerator == 0 ==> xp == amount
    ensures applyMultiplier && multiplier.Some? && multiplier.value.numerator != 0 ==>
      xp == FloorMultiply(amount, multiplier.value)
  {
    if applyMultiplier && multiplier.Some? && multiplier.value.numerator != 0
    then FloorMultiply(amount, multiplier.value)
    else amount
  }

  /** The premium multiplier truncates: 15 XP at 1.5x is 22, not 23. */
  lemma PremiumGrantTruncates()
    ensures XPToAdd(15, true, Some(Premium)) == 22
    ensures XPToAdd(15, false, Some(Premium)) == 15
  {
  }

  /** XP recorded for `source` on `date`, 0 when there is no entry. */
  function DailyXP(daily: map<Date, map<Source, int>>, date: Date, source: Source): int
  {
    if date in daily && source in daily[date] then daily[date][source] else 0
  }

  /**
   * The bookkeeping at the end of `addXP`: create the day and the source entry when
   * missing and add the granted XP to it, with no cap applied.
   */
  function RecordDailyXP(daily: map<Date, map<Source, int>>, today: Date, source: Source, xp: int)
    : (r: map<Date, map<Source, int>>)
    ensures r.Keys == daily.Keys + {today}
    ensures source in r[today]
    ensures r[today].Keys == (if today in daily then daily[today].Keys else {}) + {source}
    ensures DailyXP(r, today, source) == DailyXP(daily, today, source) + xp
    ensures forall d :: d in daily && d != today ==> r[d] == daily[d]
    ensures forall s :: s != source ==> DailyXP(r, today, s) == DailyXP(daily, today, s)
  {
    var day := if today in daily then daily[today] else map[];
    var before := if source in day then day[source] else 0;
    daily[today := day[source := before + xp]]
  }

  /** `resetDailyXP`: keep only today's entry, if there is one. */
  function KeepOnlyToday(daily: map<Date, map<Source, int>>, today: Date): (r: map<Date, map<Source, int>>)
    ensures r.Keys == daily.Keys * {today}
    ensures today in daily ==> r[today] == daily[today]
  {
    if today in daily then map[today := daily[today]] else map[]
  }

  /** `achievements.find(a => a.id === id)`, as the index of the first match. */
  function FindTracked(achievements: seq<TrackedAchievement>, id: string): (k: Option<nat>)
    ensures k.Some? ==> k.value < |achievements| && achievements[k.value].id == id
    ensures k.Some? ==> forall j :: 0 <= j < k.value ==> achievements[j].id != id
    ensures k.None? ==> forall j :: 0 <= j < |achievements| ==> achievements[j].id != id
  {
    if achievements == [] then None
    else if achievements[0].id == id then Some(0)
    else match FindTracked(achievements[1..], id)
      case None => None
      case Some(k) => Some(k + 1)
  }

  /**
   * The display fields show `level` as `getLevelInfo` gives it: the row of the
   * clamped level and its breakpoint tier (GetLevelInfo's contract).
   */
  predicate ShowsLevel(level: int, titleRow: nat, emojiRow: nat, tier: Tier)
  {
    titleRow == emojiRow == ClampLevel(level) && tier == TierOfLevel(ClampLevel(level))
  }

  class AchievementsState {
    var level: int
    var currentXP: int
    var totalXP: int
    var achievements: seq<TrackedAchievement>
    var unlockedBadges: seq<string>
    var recentUnlocks: seq<RecentUnlock>
    var lastLevelUp: Option<Timestamp>
    var dailyXPEarned: map<Date, map<Source, int>>
    /** The row of the title table whose title is shown. */
    var levelTitle: nat
    /** The row of the title table whose emoji is shown. */
    var levelEmoji: nat
    var levelTier: Tier

    /**
     * The ledger identity: the levels below `level` are paid for out of `totalXP`,
     * the rest is `currentXP`, which never covers the current level; the displayed
     * title, emoji and tier are those of `level`; no badge is unlocked twice.
     */
    ghost predicate Valid()
      reads this
    {
      && level >= 1
      && currentXP < XPForLevel(level)
      && CumulativeXP(level) + currentXP == totalXP
      && ShowsLevel(level, levelTitle, levelEmoji, levelTier)
      && NoDuplicates(unlockedBadges)
    }

    function Snapshot(): Slice
      reads this
    {
      Slice(level, currentXP, totalXP, achievements, unlockedBadges, recentUnlocks,
            lastLevelUp, dailyXPEarned, levelTitle, levelEmoji, levelTier)
    }

    /** The initial state: level 1, no XP, nothing unlocked. */
    constructor ()
      ensures Valid()
      ensures Snapshot() == Slice(1, 0, 0, [], [], [], None, map[], 1, 1, Beginner)
      ensures SplitsAt(totalXP, level, currentXP)
    {
      level := 1;
      currentXP := 0;
      totalXP := 0;
      achievements := [];
      unlockedBadges := [];
      recentUnlocks := [];
      lastLevelUp := None;
      dailyXPEarned := map[];
      levelTitle := 1;
      levelEmoji := 1;
      levelTier := Beginner;
      assert GetLevelInfo(1) == BeginnerRows[0];
    }

    /**
     * The level-up loop shared by `addXP` and `unlockAchievement`: while the progress
     * covers the current level's cost, pay it and move up one level.
     */
    method ClimbLevels(now: Timestamp) returns (leveledUp: bool)
      requires level >= 1 && CumulativeXP(level) + currentXP == totalXP
      modifies this`level, this`currentXP, this`lastLevelUp
      ensures level >= old(level)
      ensures currentXP < XPForLevel(level)
      ensures CumulativeXP(level) + currentXP == totalXP
      ensures level > old(level) ==> currentXP >= 0
      ensures level == old(level) ==> currentXP == old(currentXP)
      ensures level > old(level) <==> old(currentXP) >= XPForLevel(old(level))
      ensures leveledUp <==> level > old(level)
      ensures lastLevelUp == if level > old(level) then Some(now) else old(lastLevelUp)
    {
      leveledUp := false;
      while currentXP >= XPForLevel(level)
        invariant level >= old(level)
        invariant CumulativeXP(level) + currentXP == totalXP
        invariant level > old(level) ==> currentXP >= 0 && lastLevelUp == Some(now)
        invariant level == old(level) ==> currentXP == old(currentXP) && lastLevelUp == old(lastLevelUp)
        invariant leveledUp <==> level > old(level)
        invariant level > old(level) ==> old(currentXP) >= XPForLevel(old(level))
        decreases currentXP
      {
        var xpNeeded := XPForLevel(level);
        currentXP := currentXP - xpNeeded;
        level := level + 1;
        leveledUp := true;
        lastLevelUp := Some(now);
      }
    }

    /** Copy the title, emoji and tier of the current level into the display fields. */
    method RefreshLevelInfo()
      modifies this`levelTitle, this`levelEmoji, this`levelTier
      ensures ShowsLevel(level, levelTitle, levelEmoji, levelTier)
    {
      var info := GetLevelInfo(level);
      levelTitle, levelEmoji, levelTier := info.row, info.row, info.tier;
    }

    /**
     * `addXP`: grant the (possibly multiplied) amount to both counters, climb as many
     * levels as it pays for, and record it against today's entry for `source`.
     */
    method AddXP(amount: int, source: Source, applyMultiplier: bool, multiplier: Option<Multiplier>,
                 today: Date, now: Timestamp)
      returns (leveledUp: bool, xpAdded: int)
      requires Valid()
      modifies this
      ensures Valid()
      ensures xpAdded == XPToAdd(amount, applyMultiplier, multiplier)
      ensures totalXP == old(totalXP) + xpAdded
      ensures level >= old(level)
      ensures leveledUp <==> level > old(level)
      ensures old(currentXP) + xpAdded >= 0 ==> SplitsAt(totalXP, level, currentXP)
      ensures old(currentXP) + xpAdded < 0 ==> level == old(level) && currentXP == old(currentXP) + xpAdded
      ensures lastLevelUp == if leveledUp then Some(now) else old(lastLevelUp)
      ensures dailyXPEarned == RecordDailyXP(old(dailyXPEarned), today, source, xpAdded)
      ensures achievements == old(achievements)
      ensures unlockedBadges == old(unlockedBadges) && recentUnlocks == old(recentUnlocks)
    {
      xpAdded := XPToAdd(amount, applyMultiplier, multiplier);
      leveledUp := Credit(xpAdded, now);
      dailyXPEarned := RecordDailyXP(dailyXPEarned, today, source, xpAdded);
    }

    /**
     * The part `addXP` and `unlockAchievement` share: add `xp` to both counters,
     * run the level-up loop and refresh the level display.
     */
    method Credit(xp: int, now: Timestamp) returns (leveledUp: bool)
      requires Valid()
      modifies this`level, this`currentXP, this`totalXP, this`lastLevelUp,
               this`levelTitle, this`levelEmoji, this`levelTier
      ensures Valid()
      ensures totalXP == old(totalXP) + xp
      ensures level >= old(level)
      ensures leveledUp <==> level > old(level)
      ensures old(currentXP) + xp >= 0 ==> SplitsAt(totalXP, level, currentXP)
      ensures old(currentXP) + xp < 0 ==> level == old(level) && currentXP == old(currentXP) + xp
      ensures lastLevelUp == if leveledUp then Some(now) else old(lastLevelUp)
    {
      currentXP := currentXP + xp;
      totalXP := totalXP + xp;
      leveledUp := ClimbLevels(now);
      RefreshLevelInfo();
    }

    /**
     * `setXP`: rehydrate from a persisted lifetime total through `getLevelFromXP`,
     * leaving everything but the counters and the level display alone.
     */
    method SetXP(newTotalXP: int)
      requires Valid()
      modifies this
      ensures Valid()
      ensures totalXP == newTotalXP
      ensures newTotalXP >= 0 ==> SplitsAt(totalXP, level, currentXP)
      ensures newTotalXP < 0 ==> level == 1 && currentXP == newTotalXP
      ensures achievements == old(achievements) && unlockedBadges == old(unlockedBadges)
      ensures recentUnlocks == old(recentUnlocks) && lastLevelUp == old(lastLevelUp)
      ensures dailyXPEarned == old(dailyXPEarned)
    {
      var p := LevelFromXP(newTotalXP);
      level := p.level;
      currentXP := p.currentXP;
      totalXP := newTotalXP;
      RefreshLevelInfo();
    }

    /**
     * `unlockAchievement`: a no-op for an id already unlocked; otherwise record the
     * badge and the unlock, and feed a non-zero bonus through the level-up loop
     * (with no multiplier and no daily bookkeeping).
     */
    method UnlockAchievement(achievement: Achievement, now: Timestamp)
      requires Valid()
      modifies this
      ensures Valid()
      ensures achievement.id in old(unlockedBadges) ==> Snapshot() == old(Snapshot())
      ensures achievement.id !in old(unlockedBadges) ==>
        && unlockedBadges == old(unlockedBadges) + [achievement.id]
        && recentUnlocks == old(recentUnlocks) + [RecentUnlock(achievement, now)]
        && totalXP == old(totalXP) + achievement.xp
        && level >= old(level)
        && (old(currentXP) + achievement.xp >= 0 ==> SplitsAt(totalXP, level, currentXP))
        && (old(currentXP) + achievement.xp < 0 ==>
              level == old(level) && currentXP == old(currentXP) + achievement.xp)
        && lastLevelUp == (if level > old(level) then Some(now) else old(lastLevelUp))
        && achievements == old(achievements)
        && dailyXPEarned == old(dailyXPEarned)
    {
      if achievement.id !in unlockedBadges {
        unlockedBadges := unlockedBadges + [achievement.id];
        recentUnlocks := recentUnlocks + [RecentUnlock(achievement, now)];
        if achievement.xp != 0 {
          var leveledUp := Credit(achievement.xp, now);
        }
      }
    }

    /** `updateAchievementProgress`: set the progress of the first achievement with that id. */
    method UpdateAchievementProgress(id: string, progress: int)
      requires Valid()
      modifies this`achievements
      ensures Valid()
      ensures FindTracked(old(achievements), id).None? ==> achievements == old(achievements)
      ensures FindTracked(old(achievements), id).Some? ==>
        achievements == old(achievements)[FindTracked(old(achievements), id).value := TrackedAchievement(id, progress)]
    {
      var found := FindTracked(achievements, id);
      if found.Some? {
        achievements := achievements[found.value := TrackedAchievement(id, progress)];
      }
    }

    /** `clearRecentUnlocks`. */
    method ClearRecentUnlocks()
      requires Valid()
      modifies this`recentUnlocks
      ensures Valid()
      ensures Snapshot() == old(Snapshot()).(recentUnlocks := [])
    {
      recentUnlocks := [];
    }

    /** `resetDailyXP`: drop every day but today from the daily bookkeeping. */
    method ResetDailyXP(today: Date)
      requires Valid()
      modifies this`dailyXPEarned
      ensures Valid()
      ensures Snapshot() == old(Snapshot()).(dailyXPEarned := KeepOnlyToday(old(dailyXPEarned), today))
    {
      dailyXPEarned := KeepOnlyToday(dailyXPEarned, today);
    }
  }

  /** One grant a client can make: XP from a source, or an achievement unlock. */
  datatype Grant =
    | Earn(amount: int, source: Source, applyMultiplier: bool, multiplier: Option<Multiplier>)
    | Unlock(achievement: Achievement)

  /** A grant that can only add XP: non-negative amounts and multipliers. */
  predicate NonNegativeGrant(g: Grant)
  {
    match g
    case Earn(amount, _, _, multiplier) =>
      amount >= 0 && (multiplier.Some? ==> multiplier.value.numerator >= 0)
    case Unlock(achievement) => achievement.xp >= 0
  }

  /**
   * Rehydration consistency: replaying any sequence of non-negative grants on a fresh
   * slice, then rehydrating a second fresh slice with `setXP` from the replayed
   * lifetime total, gives the same level and progress.
   */
  method ReplayAgreesWithRehydration(grants: seq<Grant>, today: Date, now: Timestamp)
    returns (replayed: LevelProgress, rehydrated: LevelProgress)
    requires forall i :: 0 <= i < |grants| ==> NonNegativeGrant(grants[i])
    ensures replayed == rehydrated
    ensures replayed.level >= 1 && 0 <= replayed.currentXP < replayed.xpForNextLevel
  {
    var s := new AchievementsState();
    for i := 0 to |grants|
      invariant s.Valid() && s.currentXP >= 0
    {
      match grants[i]
      case Earn(amount, source, applyMultiplier, multiplier) =>
        var leveledUp, xpAdded := s.AddXP(amount, source, applyMultiplier, multiplier, today, now);
      case Unlock(achievement) =>
        s.UnlockAchievement(achievement, now);
    }
    var r := new AchievementsState();
    r.SetXP(s.totalXP);
    SplitIsUnique(s.totalXP, s.level, s.currentXP, r.level, r.currentXP);
    replayed := LevelProgress(s.level, s.currentXP, XPForLevel(s.level));
    rehydrated := LevelProgress(r.level, r.currentXP, XPForLevel(r.level));
  }

  /** One 5000 XP grant at level 1 climbs nine levels in one call: level 10 with 500 XP. */
  method LargeGrantClimbsSeveralLevels(today: Date, now: Timestamp)
    returns (progress: LevelProgress, leveledUp: bool)
    ensures progress == LevelProgress(10, 500, 1000) && leveledUp
  {
    var s := new AchievementsState();
    var xpAdded;
    leveledUp, xpAdded := s.AddXP(5000, "achievement", false, None, today, now);
    FiveThousandXPIsLevelTen(s.level, s.currentXP);
    progress := LevelProgress(s.level, s.currentXP, XPForLevel(s.level));
  }
}
