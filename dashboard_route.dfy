/**
  The dashboard routes: the summary the dashboard opens with, built from the
  user's expenses and their streak statistics, and the detailed streak
  analytics built from the streak record. Expenses are those whose `User_ID`
  is the user's id.
 */
module DashboardRoute {
  import opened Common
  import opened Sorting
  import opened StreakModel
  import opened TransactionModel
  import opened AnalyticsRoute
  import StreakRoute

  /** The five faces `getStreakEmoji` picks from, in increasing order. */
  datatype StreakEmoji = Neutral | Slight | Smiling | Fire | Trophy

  function EmojiRank(e: StreakEmoji): nat {
    match e
    case Neutral => 0
    case Slight => 1
    case Smiling => 2
    case Fire => 3
    case Trophy => 4
  }

  /** `getStreakEmoji` */
  function StreakEmojiFor(streakCount: int): (e: StreakEmoji)
    ensures e == Neutral <==> streakCount == 0
    ensures e == Slight <==> streakCount != 0 && streakCount < 3
    ensures e == Smiling <==> 3 <= streakCount < 5
    ensures e == Fire <==> 5 <= streakCount < 7
    ensures e == Trophy <==> streakCount >= 7
  {
    if streakCount == 0 then Neutral
    else if streakCount < 3 then Slight
    else if streakCount < 5 then Smiling
    else if streakCount < 7 then Fire
    else Trophy
  }

  /** A longer streak never shows a lesser face; a negative count, which no route
      stores, shows the face of a short streak. */
  lemma EmojiMonotone(a: int, b: int)
    ensures 0 <= a <= b ==> EmojiRank(StreakEmojiFor(a)) <= EmojiRank(StreakEmojiFor(b))
    ensures a < 0 ==> StreakEmojiFor(a) == Slight
  {
  }

  /** What the streak statistics service reports for a user. The service is not
      part of this model, so its answer is an input. */
  datatype StreakStats = StreakStats(
    currentStreak: int,
    longestStreak: int,
    completedStreaks: int,
    freeImpulsePurchases: int,
    activeVouchers: seq<Voucher>)

  /** `streakAchievements`, without its two display strings. */
  datatype StreakAchievements = StreakAchievements(
    currentStreakEmoji: StreakEmoji,
    streakProgressPercent: real,
    nextMilestone: int,
    completedStreaks: int,
    freeImpulsePurchases: int,
    activeVouchers: nat,
    freeImpulseProgress: int,
    freeImpulseProgressPercent: real)

  function AchievementsFor(stats: StreakStats): StreakAchievements {
    var cs := stats.currentStreak;
    var free := JsRem(stats.completedStreaks, 3);
    StreakAchievements(
      StreakEmojiFor(cs),
      Min(cs as real / 7.0 * 100.0, 100.0),
      7 - JsRem(cs, 7),
      stats.completedStreaks,
      stats.freeImpulsePurchases,
      |stats.activeVouchers|,
      free,
      free as real / 3.0 * 100.0)
  }

  /** For a streak that is not negative: the progress percentage lies in [0, 100]
      and reaches 100 from the seventh day on; the next milestone is 1 to 7 days
      away, 7 exactly on a multiple of 7 (0 included); the free-impulse progress
      is 0, 1 or 2 of 3 with its matching percentage. */
  lemma AchievementBounds(stats: StreakStats)
    ensures var a := AchievementsFor(stats);
      && (stats.currentStreak >= 0 ==> 0.0 <= a.streakProgressPercent <= 100.0)
      && (a.streakProgressPercent == 100.0 <==> stats.currentStreak >= 7)
      && (stats.currentStreak >= 0 ==> 1 <= a.nextMilestone <= 7)
      && (a.nextMilestone == 7 <==> stats.currentStreak % 7 == 0)
      && (stats.currentStreak >= 0 ==> (stats.currentStreak + a.nextMilestone) % 7 == 0)
      && (stats.completedStreaks >= 0 ==> 0 <= a.freeImpulseProgress <= 2)
      && (stats.completedStreaks >= 0 ==> 0.0 <= a.freeImpulseProgressPercent < 100.0)
      && a.activeVouchers == |stats.activeVouchers|
  {
    var a := AchievementsFor(stats);
    MilestoneBounds(stats.currentStreak);
    ProgressPercentBounds(stats.currentStreak);
    assert a.nextMilestone == 7 - JsRem(stats.currentStreak, 7);
    assert a.streakProgressPercent == Min(stats.currentStreak as real / 7.0 * 100.0, 100.0);
  }

  lemma MilestoneBounds(cs: int)
    ensures cs >= 0 ==> 1 <= 7 - JsRem(cs, 7) <= 7 && (cs + 7 - JsRem(cs, 7)) % 7 == 0
    ensures 7 - JsRem(cs, 7) == 7 <==> cs % 7 == 0
  {
    if cs < 0 {
      assert JsRem(cs, 7) == -((-cs) % 7);
      assert (-cs) % 7 == 0 <==> cs % 7 == 0;
    }
  }

  lemma ProgressPercentBounds(cs: int)
    ensures cs >= 0 ==> 0.0 <= Min(cs as real / 7.0 * 100.0, 100.0) <= 100.0
    ensures Min(cs as real / 7.0 * 100.0, 100.0) == 100.0 <==> cs >= 7
  {
  }

  /** `Impulse_Tag: true` among the given expenses. */
  function ImpulseOnly(s: seq<Expense>): (r: seq<Expense>)
    ensures |r| <= |s|
    ensures forall e :: e in r <==> e in s && e.impulseTag
  {
    if s == [] then []
    else ImpulseOnly(s[..|s| - 1]) + (if s[|s| - 1].impulseTag then [s[|s| - 1]] else [])
  }

  /** The expenses that are not tagged impulsive. */
  function NonImpulseOnly(s: seq<Expense>): (r: seq<Expense>)
    ensures |r| <= |s|
    ensures forall e :: e in r <==> e in s && !e.impulseTag
  {
    if s == [] then []
    else NonImpulseOnly(s[..|s| - 1]) + (if s[|s| - 1].impulseTag then [] else [s[|s| - 1]])
  }

  /** `financialStats`, without the category breakdown. */
  datatype FinancialStats = FinancialStats(
    totalExpenses: nat,
    impulseExpenses: nat,
    nonImpulseExpenses: int,
    totalAmount: real,
    impulseAmount: real,
    nonImpulseAmount: real,
    impulsePercentage: real,
    savedAmount: real)

  function FinancialStatsFor(expenses: seq<Expense>, userId: string): FinancialStats {
    var mine := WithUserIdField(expenses, userId);
    var impulses := ImpulseOnly(mine);
    var total := SumAmounts(mine);
    var impulseTotal := SumAmounts(impulses);
    FinancialStats(
      |mine|, |impulses|, |mine| - |impulses|,
      total, impulseTotal, total - impulseTotal,
      if |mine| > 0 then |impulses| as real / |mine| as real * 100.0 else 0.0,
      if total > 0.0 then impulseTotal / total * 100.0 else 0.0)
  }

  /** Every expense is either tagged impulsive or not, in count and in amount. */
  lemma {:induction false} ImpulseSplit(s: seq<Expense>)
    ensures |ImpulseOnly(s)| + |NonImpulseOnly(s)| == |s|
    ensures SumAmounts(ImpulseOnly(s)) + SumAmounts(NonImpulseOnly(s)) == SumAmounts(s)
  {
    if s != [] {
      var init := s[..|s| - 1];
      var e := s[|s| - 1];
      ImpulseSplit(init);
      var imp := ImpulseOnly(init);
      var non := NonImpulseOnly(init);
      assert SumAmounts(s) == SumAmounts(init) + e.amount;
      if e.impulseTag {
        assert ImpulseOnly(s) == imp + [e];
        assert NonImpulseOnly(s) == non + [];
        assert non + [] == non;
        SumAmountsAppend(imp, e);
      } else {
        assert ImpulseOnly(s) == imp + [];
        assert imp + [] == imp;
        assert NonImpulseOnly(s) == non + [e];
        SumAmountsAppend(non, e);
      }
    }
  }

  /** The non-impulse figures, computed as differences, are the count and the total
      of the expenses not tagged impulsive, and the impulse percentage lies in
      [0, 100]. */
  lemma FinancialStatsSplit(expenses: seq<Expense>, userId: string)
    ensures var f := FinancialStatsFor(expenses, userId);
      var mine := WithUserIdField(expenses, userId);
      && f.nonImpulseExpenses == |NonImpulseOnly(mine)|
      && f.nonImpulseAmount == SumAmounts(NonImpulseOnly(mine))
      && 0 <= f.nonImpulseExpenses <= f.totalExpenses
      && 0.0 <= f.impulsePercentage <= 100.0
      && (f.impulsePercentage == 100.0 <==> f.totalExpenses > 0 && f.nonImpulseExpenses == 0)
  {
    var mine := WithUserIdField(expenses, userId);
    ImpulseSplit(mine);
    var n := |ImpulseOnly(mine)|;
    if |mine| > 0 {
      assert n <= |mine|;
      assert UsageRate(n, |mine|) == n as real / |mine| as real * 100.0;
    }
  }

  /** `Expense.find({ User_ID }).sort({ Date: -1 }).limit(5)`: the user's five newest
      expenses, newest first. Every one of the user's expenses left out is no newer
      than the last one shown. */
  function RecentTransactions(expenses: seq<Expense>, userId: string): (r: seq<Expense>)
    ensures |r| == MinInt(5, |WithUserIdField(expenses, userId)|)
    ensures forall i, j :: 0 <= i < j < |r| ==> r[i].date >= r[j].date
    ensures multiset(r) <= multiset(WithUserIdField(expenses, userId))
    ensures |WithUserIdField(expenses, userId)| <= 5 ==> multiset(r) == multiset(WithUserIdField(expenses, userId))
    ensures |r| > 0 ==> forall e :: e in WithUserIdField(expenses, userId) && e.date > r[|r| - 1].date ==> e in r
  {
    var mine := WithUserIdField(expenses, userId);
    NewestFive(mine);
    Take(SortBy(mine, NewestFirst), 5)
  }

  function NewestFirst(e: Expense): int {
    -e.date
  }

  lemma NewestFive(s: seq<Expense>)
    ensures var r := Take(SortBy(s, NewestFirst), 5);
      && (forall i, j :: 0 <= i < j < |r| ==> r[i].date >= r[j].date)
      && multiset(r) <= multiset(s)
      && (|s| <= 5 ==> multiset(r) == multiset(s))
      && (|r| > 0 ==> forall e :: e in s && e.date > r[|r| - 1].date ==> e in r)
  {
    var sorted := SortBy(s, NewestFirst);
    var n := MinInt(5, |s|);
    assert Take(sorted, 5) == sorted[..n];
    NewestFirstOrdered(sorted, n);
    NewestFirstPrefix(s, n);
  }

  lemma NewestFirstOrdered(sorted: seq<Expense>, n: nat)
    requires SortedBy(sorted, NewestFirst) && n <= |sorted|
    ensures forall i, j :: 0 <= i < j < n ==> sorted[..n][i].date >= sorted[..n][j].date
  {
    forall i, j | 0 <= i < j < n ensures sorted[..n][i].date >= sorted[..n][j].date {
      assert NewestFirst(sorted[i]) <= NewestFirst(sorted[j]);
    }
  }

  lemma NewestFirstPrefix(s: seq<Expense>, n: nat)
    requires n <= |s|
    ensures var r := SortBy(s, NewestFirst)[..n];
      && multiset(r) <= multiset(s)
      && (n == |s| ==> multiset(r) == multiset(s))
      && (n > 0 ==> forall e :: e in s && e.date > r[n - 1].date ==> e in r)
  {
    SortedPrefixKeepsLowest(s, NewestFirst, n);
    if n > 0 {
      var r := SortBy(s, NewestFirst)[..n];
      forall e | e in s && e.date > r[n - 1].date ensures e in r {
        assert NewestFirst(e) < NewestFirst(SortBy(s, NewestFirst)[n - 1]);
      }
    }
  }

  /** The recent transactions are the user's own. */
  lemma RecentAreTheUsers(expenses: seq<Expense>, userId: string)
    ensures forall e :: e in RecentTransactions(expenses, userId) ==> e in expenses && e.userIdField == userId
  {
    var mine := WithUserIdField(expenses, userId);
    var sorted := SortBy(mine, NewestFirst);
    SortByPermutes(mine, NewestFirst);
    ElementsOfPermutation(sorted, mine);
  }

  /** The body of `GET /` on success. */
  datatype DashboardData = DashboardData(
    financialStats: FinancialStats,
    streakInfo: StreakAchievements,
    longestStreak: int,
    recentTransactions: seq<Expense>,
    activeVouchers: seq<Voucher>,
    freeImpulsePurchases: int)

  /** `GET /` as written: its first statement calls `streakService`, a name the
      file never imports or declares, so the call throws and every request is
      answered with status 500. */
  function DashboardAsWritten(expenses: seq<Expense>, userId: string): (r: Result<DashboardData, int>)
    ensures r.Err?
  {
    Err(500)
  }

  /** Whatever the data, the route as written never answers successfully. */
  lemma DashboardAlwaysFailsAsWritten(expenses: seq<Expense>, userId: string)
    ensures DashboardAsWritten(expenses, userId) == Err(500)
    ensures forall extra: Expense :: DashboardAsWritten(expenses + [extra], userId) == Err(500)
  {
  }

  /** `GET /` with the streak statistics supplied. */
  function Dashboard(stats: StreakStats, expenses: seq<Expense>, userId: string): (r: Result<DashboardData, int>)
    ensures r.Ok?
  {
    Ok(DashboardData(FinancialStatsFor(expenses, userId), AchievementsFor(stats), stats.longestStreak,
      RecentTransactions(expenses, userId), stats.activeVouchers, stats.freeImpulsePurchases))
  }

  /** With the statistics supplied, the dashboard answers, its rewards repeat the
      statistics, and its active-voucher count is the length of the list it returns. */
  lemma DashboardAnswers(stats: StreakStats, expenses: seq<Expense>, userId: string)
    ensures var d := Dashboard(stats, expenses, userId).value;
      && d.streakInfo.activeVouchers == |d.activeVouchers|
      && d.activeVouchers == stats.activeVouchers
      && d.freeImpulsePurchases == d.streakInfo.freeImpulsePurchases == stats.freeImpulsePurchases
      && d.financialStats.totalExpenses == |WithUserIdField(expenses, userId)|
      && |d.recentTransactions| <= 5
  {
  }

  /** The status shown for a voucher in `voucherHistory`. */
  datatype VoucherStatus = Used | Expired | Active

  /** A voucher without `expiresAt` compares as not expired. */
  function VoucherStatusOf(v: Voucher, now: int): (s: VoucherStatus)
    ensures s == Used <==> v.used
    ensures s == Expired <==> !v.used && v.expiresAt.Some? && now > v.expiresAt.value
    ensures s == Active <==> !v.used && !IsExpired(v, now)
  {
    if v.used then Used
    else if v.expiresAt.Some? && now > v.expiresAt.value then Expired
    else Active
  }

  /** The status agrees with redemption: the first voucher with its id is active
      exactly when redeeming it succeeds, expired exactly when redemption is
      refused as expired, and used exactly when it is refused as used. A voucher
      without an expiry shows as active but is not counted as current by the
      reward statistics. */
  lemma StatusMatchesRedemption(rec: StreakRecord, k: nat, now: int)
    requires k < |rec.vouchersEarned|
    requires StreakRoute.FindVoucher(rec.vouchersEarned, rec.vouchersEarned[k].id) == k
    ensures var v := rec.vouchersEarned[k];
      var r := StreakRoute.RedeemVoucher(Some(rec), v.id, now);
      && (VoucherStatusOf(v, now) == Active <==> r.Ok?)
      && (VoucherStatusOf(v, now) == Expired <==> r == Err(StreakRoute.VoucherExpired))
      && (VoucherStatusOf(v, now) == Used <==> r == Err(StreakRoute.VoucherAlreadyUsed))
      && (IsCurrent(v, now) <==> VoucherStatusOf(v, now) == Active && v.expiresAt.Some?)
  {
  }

  /** One element of `voucherHistory`. */
  datatype VoucherView = VoucherView(id: string, voucherType: Option<VoucherType>, earnedAt: int,
                                     expiresAt: Option<int>, used: bool, status: VoucherStatus)

  function VoucherHistory(vs: seq<Voucher>, now: int): (r: seq<VoucherView>)
    ensures |r| == |vs|
    ensures forall i :: 0 <= i < |vs| ==>
      && r[i].id == vs[i].id && r[i].voucherType == vs[i].voucherType && r[i].earnedAt == vs[i].earnedAt
      && r[i].used == vs[i].used && r[i].expiresAt == vs[i].expiresAt
      && r[i].status == VoucherStatusOf(vs[i], now)
  {
    seq(|vs|, i requires 0 <= i < |vs| =>
      VoucherView(vs[i].id, vs[i].voucherType, vs[i].earnedAt, vs[i].expiresAt, vs[i].used, VoucherStatusOf(vs[i], now)))
  }

  /** `[...new Set(days)]` of the impulse or the other expenses, as a set of days. */
  function ImpulseDays(s: seq<Expense>): set<int> {
    set e | e in s && e.impulseTag :: DayOf(e.date)
  }

  function NonImpulseDays(s: seq<Expense>): set<int> {
    set e | e in s && !e.impulseTag :: DayOf(e.date)
  }

  datatype StreakSummary = StreakSummary(
    currentStreak: int,
    longestStreak: int,
    completedStreaks: int,
    totalNonImpulseDays: nat,
    totalImpulseDays: nat,
    nonImpulsePercentage: real)

  datatype RewardsSummary = RewardsSummary(
    totalVouchersEarned: nat,
    totalVouchersUsed: nat,
    unusedVouchers: int,
    totalFreeImpulsePurchasesEarned: int,
    totalFreeImpulsePurchasesUsed: nat,
    currentFreeImpulsePurchases: int)

  /** The `analytics` object: all zeros and empty histories without a streak
      record. */
  datatype StreakAnalytics =
    | NoStreakYet
    | StreakAnalytics(streakSummary: StreakSummary, rewardsSummary: RewardsSummary, voucherHistory: seq<VoucherView>)

  /** `GET /streak-analytics` */
  function StreakAnalyticsFor(streak: Option<StreakRecord>, expenses: seq<Expense>, userId: string, now: int): StreakAnalytics {
    match streak
    case None => NoStreakYet
    case Some(rec) =>
      var mine := WithUserIdField(expenses, userId);
      var nonImpulse := |NonImpulseDays(mine)|;
      var impulse := |ImpulseDays(mine)|;
      var vs := rec.vouchersEarned;
      var pct := if |mine| > 0 && nonImpulse + impulse > 0
        then nonImpulse as real / (nonImpulse + impulse) as real * 100.0 else 0.0;
      StreakAnalytics(
        StreakSummary(rec.currentStreak, rec.longestStreak, rec.completedStreaks, nonImpulse, impulse, pct),
        RewardsSummary(|vs|, UsedCount(vs), |vs| - UsedCount(vs), FloorThird(rec.completedStreaks),
          FreeImpulseCount(mine), rec.freeImpulsePurchases),
        VoucherHistory(vs, now))
  }

  /** The two day sets cover exactly the days the user has an expense on; a day
      with both kinds of expense is in both, so the two counts add up to the active
      days plus the days in both. */
  lemma DaySetsCoverActiveDays(s: seq<Expense>)
    ensures forall d :: d in ImpulseDays(s) + NonImpulseDays(s) <==> exists e :: e in s && DayOf(e.date) == d
    ensures |ImpulseDays(s)| + |NonImpulseDays(s)| == |ImpulseDays(s) + NonImpulseDays(s)| + |ImpulseDays(s) * NonImpulseDays(s)|
  {
    forall d | exists e :: e in s && DayOf(e.date) == d
      ensures d in ImpulseDays(s) + NonImpulseDays(s)
    {
      var e :| e in s && DayOf(e.date) == d;
      if e.impulseTag {
        assert d in ImpulseDays(s);
      } else {
        assert d in NonImpulseDays(s);
      }
    }
  }

  /** An impulse and a planned purchase on the same day count that day in both sets,
      so the non-impulse percentage reads 50 although the user was active on one
      day only. */
  lemma SameDayCountsTwice(planned: Expense, impulsive: Expense)
    requires !planned.impulseTag && impulsive.impulseTag
    requires DayOf(planned.date) == DayOf(impulsive.date)
    ensures ImpulseDays([planned, impulsive]) == NonImpulseDays([planned, impulsive]) == {DayOf(planned.date)}
  {
    var s := [planned, impulsive];
    forall e | e in s && e.impulseTag ensures e == impulsive { }
    forall e | e in s && !e.impulseTag ensures e == planned { }
    assert DayOf(impulsive.date) in ImpulseDays(s);
    assert DayOf(planned.date) in NonImpulseDays(s);
  }

  /** Without a record the analytics are the empty summary; with one, the
      non-impulse percentage lies in [0, 100] and is 100 exactly when the user has
      expenses and none of them is impulsive; vouchers unused are the earned ones not
      marked used; free purchases earned are a third of the completed streaks,
      rounded down; each voucher is listed with its status. */
  lemma StreakAnalyticsFigures(streak: Option<StreakRecord>, expenses: seq<Expense>, userId: string, now: int)
    ensures var a := StreakAnalyticsFor(streak, expenses, userId, now);
      && (a.NoStreakYet? <==> streak.None?)
      && (a.StreakAnalytics? ==>
            var mine := WithUserIdField(expenses, userId);
            var vs := streak.value.vouchersEarned;
            && 0.0 <= a.streakSummary.nonImpulsePercentage <= 100.0
            && (a.streakSummary.nonImpulsePercentage == 100.0 <==> mine != [] && ImpulseDays(mine) == {})
            && a.rewardsSummary.unusedVouchers == UnusedCount(vs)
            && a.rewardsSummary.totalFreeImpulsePurchasesEarned * 3 <= streak.value.completedStreaks
            && streak.value.completedStreaks < a.rewardsSummary.totalFreeImpulsePurchasesEarned * 3 + 3
            && |a.voucherHistory| == |vs|
            && (forall i :: 0 <= i < |vs| ==> a.voucherHistory[i].status == VoucherStatusOf(vs[i], now)))
  {
    if streak.Some? {
      var mine := WithUserIdField(expenses, userId);
      UsedAndUnusedPartition(streak.value.vouchersEarned);
      NonImpulsePercentageBounds(mine);
    }
  }

  lemma NonImpulsePercentageBounds(mine: seq<Expense>)
    ensures var n := |NonImpulseDays(mine)|;
      var m := |ImpulseDays(mine)|;
      var pct := if |mine| > 0 && n + m > 0 then n as real / (n + m) as real * 100.0 else 0.0;
      && 0.0 <= pct <= 100.0
      && (pct == 100.0 <==> mine != [] && ImpulseDays(mine) == {})
  {
    var n := |NonImpulseDays(mine)|;
    var m := |ImpulseDays(mine)|;
    if mine != [] {
      var e := mine[0];
      if e.impulseTag {
        assert DayOf(e.date) in ImpulseDays(mine);
      } else {
        assert DayOf(e.date) in NonImpulseDays(mine);
      }
      assert n + m > 0;
      assert n as real / (n + m) as real * 100.0 == UsageRate(n, n + m);
    }
  }
}
