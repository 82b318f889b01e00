/**
 * The `auth` slice of the Redux store: who is signed in, onboarding and plan
 * flags, and the daily scan quota with its premium cooldown.
 *
 * Each reducer mutates the draft in place, so the slice is a class whose methods
 * assign its fields. The two reducers with real branching, `incrementDailyScans`
 * and `resetDailyScans`, are also given as functions on a snapshot of the fields,
 * so that lemmas can compose them. The calendar day ("today", the value of
 * `new Date().toDateString()`) and the millisecond clock ("now") are parameters.
 */
module Auth {
  import opened Wrappers

  /** The signed-in user's profile as a record of string fields. */
  type Profile = map<string, string>
  /** A calendar day as `toDateString` renders it. */
  type Date = string

  /** Every field of the slice, as one value. */
  datatype AuthSlice = AuthSlice(
    user: Option<Profile>,
    token: Option<string>,
    isAuthenticated: bool,
    isLoading: bool,
    error: Option<string>,
    hasCompletedOnboarding: bool,
    isPremium: bool,
    dailyScansUsed: int,
    lastScanDate: Option<Date>,
    scanCooldownUntil: Option<int>,
    lastScanTimestamp: Option<int>)

  /** The scan counter is a count for the day named by `lastScanDate`; with no day it is 0. */
  predicate ScanQuotaValid(s: AuthSlice)
  {
    s.dailyScansUsed >= 0 && (s.lastScanDate.None? ==> s.dailyScansUsed == 0)
  }

  /**
   * The premium cooldown tiers, in seconds, for the scan count reached today:
   * none up to 15 scans, 30 seconds for scans 16 to 25, two minutes from 26 on.
   */
  function CooldownSeconds(scans: int): (seconds: int)
    ensures seconds == 0 <==> scans < 16
    ensures seconds == 30 <==> 16 <= scans < 26
    ensures seconds == 120 <==> scans >= 26
  {
    if scans >= 26 then 120 else if scans >= 16 then 30 else 0
  }

  /** More scans never shorten the cooldown. */
  lemma CooldownNonDecreasing(a: int, b: int)
    requires a <= b
    ensures CooldownSeconds(a) <= CooldownSeconds(b)
  {
  }

  /**
   * `incrementDailyScans`: count a scan (restarting at 1 on a new day), then, for a
   * premium user only, set or clear the cooldown deadline; always stamp the scan time.
   */
  function IncrementScans(s: AuthSlice, today: Date, now: int): (r: AuthSlice)
    ensures r.lastScanDate == Some(today)
    ensures s.lastScanDate != Some(today) ==> r.dailyScansUsed == 1
    ensures s.lastScanDate == Some(today) ==> r.dailyScansUsed == s.dailyScansUsed + 1
    ensures ScanQuotaValid(s) ==> ScanQuotaValid(r) && r.dailyScansUsed >= 1
    ensures r.isPremium && r.dailyScansUsed >= 26 ==> r.scanCooldownUntil == Some(now + 120000)
    ensures r.isPremium && 16 <= r.dailyScansUsed < 26 ==> r.scanCooldownUntil == Some(now + 30000)
    ensures r.isPremium && r.dailyScansUsed < 16 ==> r.scanCooldownUntil == None
    ensures !r.isPremium ==> r.scanCooldownUntil == s.scanCooldownUntil
    ensures r.lastScanTimestamp == Some(now)
    ensures r.(dailyScansUsed := s.dailyScansUsed, lastScanDate := s.lastScanDate,
               scanCooldownUntil := s.scanCooldownUntil, lastScanTimestamp := s.lastScanTimestamp) == s
  {
    var scans := if s.lastScanDate != Some(today) then 1 else s.dailyScansUsed + 1;
    var cooldown :=
      if !s.isPremium then s.scanCooldownUntil
      else if CooldownSeconds(scans) > 0 then Some(now + CooldownSeconds(scans) * 1000)
      else None;
    s.(dailyScansUsed := scans, lastScanDate := Some(today),
       scanCooldownUntil := cooldown, lastScanTimestamp := Some(now))
  }

  /**
   * `resetDailyScans`: on a day other than the recorded one, zero the counter,
   * record today and drop the cooldown; on the recorded day, nothing.
   */
  function ResetScans(s: AuthSlice, today: Date): (r: AuthSlice)
    ensures r.lastScanDate == Some(today)
    ensures s.lastScanDate == Some(today) ==> r == s
    ensures s.lastScanDate != Some(today) ==>
      r == s.(dailyScansUsed := 0, lastScanDate := Some(today), scanCooldownUntil := None)
    ensures ScanQuotaValid(s) ==> ScanQuotaValid(r)
  {
    if s.lastScanDate != Some(today)
    then s.(dailyScansUsed := 0, lastScanDate := Some(today), scanCooldownUntil := None)
    else s
  }

  /** Resetting twice on the same day is the same as resetting once. */
  lemma ResetScansIdempotent(s: AuthSlice, today: Date)
    ensures ResetScans(ResetScans(s, today), today) == ResetScans(s, today)
  {
  }

  /** After a reset, the next scan of the day is counted from a fresh quota of one scan, and a
   *  reset later the same day undoes nothing. */
  lemma ResetThenScan(s: AuthSlice, today: Date, now: int)
    ensures IncrementScans(ResetScans(s, today), today, now).dailyScansUsed
              == ResetScans(s, today).dailyScansUsed + 1
    ensures s.lastScanDate != Some(today) ==>
              IncrementScans(ResetScans(s, today), today, now).dailyScansUsed == 1
    ensures ResetScans(IncrementScans(s, today, now), today) == IncrementScans(s, today, now)
  {
  }

  /** A reset for `today` followed by `n` scans on that day. */
  function ScansOnDay(s: AuthSlice, today: Date, now: int, n: nat): (r: AuthSlice)
    decreases n
  {
    if n == 0 then ResetScans(s, today) else IncrementScans(ScansOnDay(s, today, now, n - 1), today, now)
  }

  /**
   * `n` scans on one day, after the day's reset, add exactly `n` to the count the day
   * started with: 0 on a new day, the existing count on the recorded day.
   */
  lemma {:induction false} ScansOnDayCounts(s: AuthSlice, today: Date, now: int, n: nat)
    ensures ScansOnDay(s, today, now, n).dailyScansUsed
              == (if s.lastScanDate == Some(today) then s.dailyScansUsed else 0) + n
    ensures ScansOnDay(s, today, now, n).lastScanDate == Some(today)
  {
    if n > 0 {
      ScansOnDayCounts(s, today, now, n - 1);
    }
  }

  /** The slice as a mutable record; each method is one reducer. */
  class AuthState {
    var user: Option<Profile>
    var token: Option<string>
    var isAuthenticated: bool
    var isLoading: bool
    var error: Option<string>
    var hasCompletedOnboarding: bool
    var isPremium: bool
    var dailyScansUsed: int
    var lastScanDate: Option<Date>
    var scanCooldownUntil: Option<int>
    var lastScanTimestamp: Option<int>

    function Snapshot(): AuthSlice
      reads this
    {
      AuthSlice(user, token, isAuthenticated, isLoading, error, hasCompletedOnboarding,
                isPremium, dailyScansUsed, lastScanDate, scanCooldownUntil, lastScanTimestamp)
    }

    predicate Valid()
      reads this
    {
      ScanQuotaValid(Snapshot())
    }

    /** The initial state: signed out, basic plan, no scans. */
    constructor()
      ensures Valid()
      ensures Snapshot() == AuthSlice(None, None, false, false, None, false, false, 0, None, None, None)
    {
      user, token, isAuthenticated, isLoading := None, None, false, false;
      error, hasCompletedOnboarding, isPremium := None, false, false;
      dailyScansUsed, lastScanDate := 0, None;
      scanCooldownUntil, lastScanTimestamp := None, None;
    }

    /** `setCredentials`: sign in with the payload's user and token and clear the error. */
    method SetCredentials(newUser: Option<Profile>, newToken: Option<string>)
      requires Valid()
      modifies this
      ensures Valid()
      ensures Snapshot() == old(Snapshot()).(user := newUser, token := newToken,
                                             isAuthenticated := true, error := None)
    {
      user := newUser;
      token := newToken;
      isAuthenticated := true;
      error := None;
    }

    /** `setLoading`. */
    method SetLoading(loading: bool)
      requires Valid()
      modifies this
      ensures Valid()
      ensures Snapshot() == old(Snapshot()).(isLoading := loading)
    {
      isLoading := loading;
    }

    /** `setError`: record the error and stop loading. */
    method SetError(e: Option<string>)
      requires Valid()
      modifies this
      ensures Valid()
      ensures Snapshot() == old(Snapshot()).(error := e, isLoading := false)
    {
      error := e;
      isLoading := false;
    }

    /**
     * `logout`: forget the user, the token, the flags and today's count. The loading
     * flag, the error, the cooldown deadline and the last scan time survive.
     */
    method Logout()
      requires Valid()
      modifies this
      ensures Valid()
      ensures Snapshot() == old(Snapshot()).(user := None, token := None, isAuthenticated := false,
                                             hasCompletedOnboarding := false, isPremium := false,
                                             dailyScansUsed := 0, lastScanDate := None)
    {
      user := None;
      token := None;
      isAuthenticated := false;
      hasCompletedOnboarding := false;
      isPremium := false;
      dailyScansUsed := 0;
      lastScanDate := None;
    }

    /** `setOnboardingComplete`. */
    method SetOnboardingComplete(complete: bool)
      requires Valid()
      modifies this
      ensures Valid()
      ensures Snapshot() == old(Snapshot()).(hasCompletedOnboarding := complete)
    {
      hasCompletedOnboarding := complete;
    }

    /**
     * `updateUser`: spread the payload over the current profile (a missing profile
     * spreads as an empty one); payload fields win.
     */
    method UpdateUser(payload: Profile)
      requires Valid()
      modifies this
      ensures Valid()
      ensures user.Some?
      ensures forall k :: k in payload ==> k in user.value && user.value[k] == payload[k]
      ensures old(user).Some? ==> forall k :: k in old(user).value && k !in payload ==>
                k in user.value && user.value[k] == old(user).value[k]
      ensures forall k :: k in user.value ==> k in payload || (old(user).Some? && k in old(user).value)
      ensures Snapshot() == old(Snapshot()).(user := user)
    {
      var current := if user.Some? then user.value else map[];
      user := Some(current + payload);
    }

    /** `setPremiumStatus`. */
    method SetPremiumStatus(premium: bool)
      requires Valid()
      modifies this
      ensures Valid()
      ensures Snapshot() == old(Snapshot()).(isPremium := premium)
    {
      isPremium := premium;
    }

    /** `incrementDailyScans`, with the day and the clock passed in. */
    method IncrementDailyScans(today: Date, now: int)
      requires Valid()
      modifies this
      ensures Valid()
      ensures dailyScansUsed >= 1 && lastScanDate == Some(today)
      ensures Snapshot() == IncrementScans(old(Snapshot()), today, now)
    {
      if lastScanDate != Some(today) {
        dailyScansUsed := 1;
        lastScanDate := Some(today);
      } else {
        dailyScansUsed := dailyScansUsed + 1;
      }
      if isPremium {
        var cooldownSeconds := 0;
        if dailyScansUsed >= 26 {
          cooldownSeconds := 120;
        } else if dailyScansUsed >= 16 {
          cooldownSeconds := 30;
        }
        if cooldownSeconds > 0 {
          scanCooldownUntil := Some(now + cooldownSeconds * 1000);
        } else {
          scanCooldownUntil := None;
        }
      }
      lastScanTimestamp := Some(now);
    }

    /** `resetDailyScans`, with the day passed in. */
    method ResetDailyScans(today: Date)
      requires Valid()
      modifies this
      ensures Valid()
      ensures lastScanDate == Some(today)
      ensures Snapshot() == ResetScans(old(Snapshot()), today)
    {
      if lastScanDate != Some(today) {
        dailyScansUsed := 0;
        lastScanDate := Some(today);
        scanCooldownUntil := None;
      }
    }

    /** `clearCooldown`: drop the deadline and nothing else. */
    method ClearCooldown()
      requires Valid()
      modifies this
      ensures Valid()
      ensures Snapshot() == old(Snapshot()).(scanCooldownUntil := None)
    {
      scanCooldownUntil := None;
    }
  }
}
