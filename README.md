# SpendWise core in Dafny

SpendWise is a personal-finance web application. Users register and log income and
expense transactions. The dashboard shows a balance, a financial health score and a
"streak" mechanic: a run of consecutive calendar days without an impulse purchase.
Vouchers and free impulse-purchase credits are the streak's rewards. A purchase is
tagged as impulsive by a rule-based classifier in the browser or by a trained model
on the server.

This project models that core and proves properties about it:

- the backend's streak calendar, streak impact and reward statistics (`AnalyticsRoute`);
- redeeming vouchers and free purchases on a user's streak record (`StreakModel`, `StreakRoute`);
- the dashboard's projections of that record (`DashboardRoute`);
- the browser's impulse classifier, health score and transaction form (`ImpulseClassifier`, `HealthScore`, `DashboardSubmit`);
- the server-side feature encoding and the pre-save re-tagging rule (`ImpulsePrediction`, `TransactionModel`);
- the smaller record-update rules: balance and transaction posting (`TransactionRoute`), the budget summary (`BudgetSummary`), challenge progress (`ChallengeModel`, `ChallengeRoute`), registration, login and profile (`UserModel`, `UserRoute`), and the front end's token check and route guards (`AppRoutes`).

Modelling conventions:

- A document collection is a class whose `seq` or `map` field the route methods update: `UserStore`, `ExpenseStore`, `StreakStore`, `ChallengeBoard`.
- Each route method's `ensures` ties the new state and the response to a pure function of the old state. The lemmas are stated about that function.
- Amounts are exact `real`s.
- Times are integer milliseconds, and a calendar day is `ms / 86400000`.
- Names that are not stored (emoji, long messages) become enumerations.
- Opaque collaborators become parameters: the TensorFlow model's `predict` (a function on the five-feature vector), bcrypt's hash and compare, base64 and JSON decoding of a token's payload, the clock `now`, the weekday of a date, and the server's reply to a form submission.
- `Common` holds shared helpers: `Option`/`Result`, JavaScript's truncating `%`, ASCII lower-casing, and `Take`/`Reverse`.
- `Sorting` is an insertion sort by an integer key. It stands for both `Array.prototype.sort` and the database's `.sort`.

Behaviour of the code worth noting:

- A voucher stays redeemable at the instant `now == expiresAt`, because the check is a strict `>`. An unused voucher with no expiry is always redeemable; a used voucher is refused whatever its expiry.
- No code increments `currentStreak` or `completedStreaks`, mints a voucher, or applies a new transaction to a streak record. The dashboard calls a `streakService` that is never defined.
- The pre-save hook recomputes an expense's impulse tag whenever the document is saved new or with an unmodified tag.
- There are two classifiers with different inputs: the browser's weighted rule, and the server's trained model.
- Redeeming a free purchase only decrements the credit balance and touches no transaction.
- The free-purchase usage rate in the rewards statistics can exceed 100. The purchases used are counted from the flagged expenses, independently of the ⌊completedStreaks/3⌋ earned, so two flagged expenses against one earned purchase give 200.

## Model

| member | source | states |
|---|---|---|
| StreakModel.NewStreakRecordDefaults | SpendWise/SpendWise-Backend/models/streak.model.js:4-59 | a new record has all four counters at 0, both dates null, no vouchers, and the given owner |
| StreakModel.NewVoucherDefaults | SpendWise/SpendWise-Backend/models/streak.model.js:34-50 | a new voucher is unused and earned now; it is expired only when an expiry exists and lies before now; without an expiry it never expires |
| StreakRoute.StatusCode | SpendWise/SpendWise-Backend/routes/streakRoute.js:39-134 | a missing record or voucher answers 404, every other refusal 400 |
| StreakRoute.FindVoucher | SpendWise/SpendWise-Backend/routes/streakRoute.js:54-56 | `findIndex`: -1 iff no voucher has the id, otherwise the first index holding it |
| StreakRoute.GetOrCreate | SpendWise/SpendWise-Backend/routes/streakRoute.js:8-36 | an existing record is returned and the store is unchanged; otherwise exactly one zero record is added for the user and every other record is kept |
| StreakRoute.GetOrCreateIdempotent | SpendWise/SpendWise-Backend/routes/streakRoute.js:12-23 | a second call, at any time, creates nothing and returns the same record |
| StreakRoute.RedeemVoucher | SpendWise/SpendWise-Backend/routes/streakRoute.js:44-81 | errors in the source's order (no record, unknown id, already used, expired); success iff found, unused and not expired, and then exactly that voucher becomes used and nothing else in the record changes |
| StreakRoute.RedeemTwiceFails | SpendWise/SpendWise-Backend/routes/streakRoute.js:65-70 | redeeming the same voucher again, at any later time, fails with "already used" |
| StreakRoute.ExpiryBoundary | SpendWise/SpendWise-Backend/routes/streakRoute.js:72-77 | a voucher is still redeemable at its expiry instant and refused as expired one millisecond later |
| StreakRoute.SpendFreeImpulse | SpendWise/SpendWise-Backend/routes/streakRoute.js:102-120 | no record gives 404; a balance of 0 or less is refused; success iff the balance is positive, and then it drops by exactly one, stays non-negative, and nothing else changes |
| StreakRoute.SpendingNeverGoesNegative | SpendWise/SpendWise-Backend/routes/streakRoute.js:111-120 | from a non-negative balance, any number of calls leaves `max(0, balance − calls)` |
| StreakRoute.StreakStore.constructor | SpendWise/SpendWise-Backend/models/streak.model.js:62 | the store starts empty |
| StreakRoute.StreakStore.MyStreak | SpendWise/SpendWise-Backend/routes/streakRoute.js:8-36 | the store and the response are those of `GetOrCreate` |
| StreakRoute.StreakStore.UseVoucher | SpendWise/SpendWise-Backend/routes/streakRoute.js:39-95 | a refusal leaves the store unchanged; a success stores the redeemed record and returns the now-used voucher |
| StreakRoute.StreakStore.UseFreeImpulse | SpendWise/SpendWise-Backend/routes/streakRoute.js:98-134 | a refusal leaves the store unchanged; a success stores the decremented record and returns the new balance |
| AnalyticsRoute.OnDay | SpendWise/SpendWise-Backend/routes/analyticsRoute.js:69-92 | the expenses on a day are exactly those whose date falls on it |
| AnalyticsRoute.Days | SpendWise/SpendWise-Backend/routes/analyticsRoute.js:69-95 | the grouped days are exactly the days some expense falls on, each listed once |
| AnalyticsRoute.Grouped | SpendWise/SpendWise-Backend/routes/analyticsRoute.js:95 | one group per distinct day, in first-seen order, each that day's group |
| AnalyticsRoute.AbsentDayIsEmpty | SpendWise/SpendWise-Backend/routes/analyticsRoute.js:61-66 | a day with no expense has the empty group, so no expenses give an empty calendar |
| AnalyticsRoute.GroupContents | SpendWise/SpendWise-Backend/routes/analyticsRoute.js:69-92 | a day's counts add up to its number of expenses, its total is their signed sum, and `hasImpulse` holds iff one of them is tagged, iff the impulse count is positive |
| AnalyticsRoute.GroupByDate | SpendWise/SpendWise-Backend/routes/analyticsRoute.js:69-95 | the dictionary-building loop yields exactly `Grouped` |
| AnalyticsRoute.GroupedDaysAreDistinct | SpendWise/SpendWise-Backend/routes/analyticsRoute.js:69-95 | grouped days are distinct, each entry is its own day's group, and a day has an entry iff some expense falls on it |
| AnalyticsRoute.IsConsecutiveDay | SpendWise/SpendWise-Backend/routes/analyticsRoute.js:353-366 | two day numbers one apart, in either order; StreakAt and StreakIsRunLength state what the streak built on it means |
| AnalyticsRoute.StreakAt | SpendWise/SpendWise-Backend/routes/analyticsRoute.js:104-131 | the running streak is 0 exactly on impulse days |
| AnalyticsRoute.StreakIsRunLength | SpendWise/SpendWise-Backend/routes/analyticsRoute.js:119-131 | on a non-impulse day the streak is the length of the maximal run of non-impulse, pairwise consecutive days ending there |
| AnalyticsRoute.StreakCoversCalendarDays | SpendWise/SpendWise-Backend/routes/analyticsRoute.js:353-366 | with sorted distinct days, a streak of k ending on day d covers exactly the calendar days d−k+1 … d |
| AnalyticsRoute.MilestoneFor | SpendWise/SpendWise-Backend/routes/analyticsRoute.js:134-143 | a milestone exists iff the streak day is a positive multiple of 7, and it is the free-impulse one iff the streak day is 21 |
| AnalyticsRoute.Annotated | SpendWise/SpendWise-Backend/routes/analyticsRoute.js:104-144 | one annotated entry per day, each carrying that day's streak and milestone |
| AnalyticsRoute.Unannotated | SpendWise/SpendWise-Backend/routes/analyticsRoute.js:98-100 | without a streak record, there is one bare entry per day |
| AnalyticsRoute.AnnotateStreaks | SpendWise/SpendWise-Backend/routes/analyticsRoute.js:104-144 | the walk reading the previous entry's `streakDay` produces exactly `Annotated` |
| AnalyticsRoute.StreakCalendar | SpendWise/SpendWise-Backend/routes/analyticsRoute.js:52-159 | the `/streak-calendar` handler's result is `StreakCalendarFor` |
| AnalyticsRoute.StreakCalendarFor | SpendWise/SpendWise-Backend/routes/analyticsRoute.js:52-160 | the `/streak-calendar` response; CalendarDays states its days and groups, CalendarStreaks its streak fields, and CalendarExpensesAreTheUsers whose expenses it reads |
| AnalyticsRoute.CalendarExpensesAreTheUsers | SpendWise/SpendWise-Backend/routes/analyticsRoute.js:56-59 | the calendar's expenses fall on exactly the days on which the queried user has an expense |
| AnalyticsRoute.SortedGroups | SpendWise/SpendWise-Backend/routes/analyticsRoute.js:102 | sorting distinct days keeps every group and puts the dates in strictly increasing order |
| AnalyticsRoute.GroupsOf | SpendWise/SpendWise-Backend/routes/analyticsRoute.js:147-150 | the calendar's day groups, entry for entry |
| AnalyticsRoute.ArrangementOfGrouped | SpendWise/SpendWise-Backend/routes/analyticsRoute.js:95-102 | any distinct rearrangement of the groups still has each day's own group and an entry exactly for the active days |
| AnalyticsRoute.CalendarDays | SpendWise/SpendWise-Backend/routes/analyticsRoute.js:52-159 | the calendar has one entry per active day of the user, each that day's group, with distinct dates, and an entry exactly for the days the user was active |
| AnalyticsRoute.CalendarStreaks | SpendWise/SpendWise-Backend/routes/analyticsRoute.js:98-144 | no record means no streak fields; with a record the dates strictly increase, `streakDay` is 0 iff the day had an impulse, and an impulse day has no milestone |
| AnalyticsRoute.TallyOf | SpendWise/SpendWise-Backend/routes/analyticsRoute.js:209-248 | every day walked is counted in exactly one bucket |
| AnalyticsRoute.WalkImpact | SpendWise/SpendWise-Backend/routes/analyticsRoute.js:209-248 | the accumulation loop yields exactly the per-day tally `TallyOf` |
| AnalyticsRoute.StreakImpact | SpendWise/SpendWise-Backend/routes/analyticsRoute.js:162-282 | the `/streak-impact` handler, grouping, sorting and walking the user's days, yields exactly `StreakImpactFor` |
| AnalyticsRoute.StreakImpactFor | SpendWise/SpendWise-Backend/routes/analyticsRoute.js:162-283 | the `/streak-impact` response; ImpactCountsEveryDay, SummaryFigures and ImpactAgreesWithCalendar state its figures |
| AnalyticsRoute.ImpactCountsEveryDay | SpendWise/SpendWise-Backend/routes/analyticsRoute.js:209-248 | streak days plus non-streak days equal the user's number of distinct days |
| AnalyticsRoute.SummaryFigures | SpendWise/SpendWise-Backend/routes/analyticsRoute.js:251-261 | projected savings are never negative and are positive iff streak days are cheaper on average; the savings percentage is below 100 and, when both averages are positive, is positive iff streak days are cheaper |
| AnalyticsRoute.ProductSign | SpendWise/SpendWise-Backend/routes/analyticsRoute.js:254-261 | scaling by a positive day count keeps the sign of a savings figure |
| AnalyticsRoute.ImpactAgreesWithCalendar | SpendWise/SpendWise-Backend/routes/analyticsRoute.js:228-243 | `/streak-impact` calls a day a streak day iff the calendar shows a `streakDay` of at least 3 for it |
| AnalyticsRoute.UsedCount | SpendWise/SpendWise-Backend/routes/analyticsRoute.js:313-314 | the used vouchers are at most all of them |
| AnalyticsRoute.UnusedCount | SpendWise/SpendWise-Backend/routes/analyticsRoute.js:313-315 | the unused vouchers are at most all of them |
| AnalyticsRoute.UsedAndUnusedPartition | SpendWise/SpendWise-Backend/routes/analyticsRoute.js:313-315 | used plus unused vouchers equal the vouchers earned |
| AnalyticsRoute.CurrentVouchers | SpendWise/SpendWise-Backend/routes/analyticsRoute.js:315 | the current vouchers are among the unused ones |
| AnalyticsRoute.FreeImpulseCount | SpendWise/SpendWise-Backend/routes/analyticsRoute.js:307-310 | the free purchases used are at most the user's expenses |
| AnalyticsRoute.UsageRate | SpendWise/SpendWise-Backend/routes/analyticsRoute.js:321-327 | a rate is never negative and is 0 with nothing earned; when no more were used than earned it is in [0, 100], reaching 100 iff everything earned was used; when more were used than earned it exceeds 100 |
| AnalyticsRoute.FloorThird | SpendWise/SpendWise-Backend/routes/analyticsRoute.js:318 | `Math.floor(n / 3)` is the q with 3q ≤ n < 3q + 3 |
| AnalyticsRoute.RewardsStatsFor | SpendWise/SpendWise-Backend/routes/analyticsRoute.js:285-350 | all zeros iff there is no record; otherwise earned is the voucher count, used and unused partition it, the voucher rate is 100 iff all were used, free purchases earned are ⌊completedStreaks/3⌋, and the used and current free purchases come from the expenses and the record |
| AnalyticsRoute.CurrentMeansRedeemable | SpendWise/SpendWise-Backend/routes/analyticsRoute.js:315 | a voucher counted as current can be redeemed; a voucher without expiry is redeemable but not counted as current |
| AnalyticsRoute.PostedExpenseInvisibleToAnalytics | SpendWise/SpendWise-Backend/routes/transactionRoute.js:73 | a transaction posted through the API is stored under the user's email, so when the email differs from the id, the calendar and impact queried by id do not change |
| DashboardRoute.StreakEmojiFor | SpendWise/SpendWise-Backend/routes/dashboardRoute.js:263-269 | five tiers: 0, under 3 (and any negative count), 3–4, 5–6, and 7 or more |
| DashboardRoute.EmojiMonotone | SpendWise/SpendWise-Backend/routes/dashboardRoute.js:263-269 | a longer streak never gets a lower tier |
| DashboardRoute.AchievementsFor | SpendWise/SpendWise-Backend/routes/dashboardRoute.js:112-123 | `streakAchievements`; its bounds are AchievementBounds |
| DashboardRoute.AchievementBounds | SpendWise/SpendWise-Backend/routes/dashboardRoute.js:112-123 | the streak percentage lies in [0, 100] and is 100 iff the streak is at least 7; `nextMilestone` lies in 1..7, is 7 iff the streak is a multiple of 7, and reaches the next multiple; the free-purchase progress is in {0, 1, 2} and its percentage below 100 |
| DashboardRoute.ImpulseOnly | SpendWise/SpendWise-Backend/routes/dashboardRoute.js:19-22 | exactly the tagged expenses |
| DashboardRoute.NonImpulseOnly | SpendWise/SpendWise-Backend/routes/dashboardRoute.js:129-133 | exactly the untagged expenses |
| DashboardRoute.ImpulseSplit | SpendWise/SpendWise-Backend/routes/dashboardRoute.js:129-133 | impulse and non-impulse expenses partition the count and the signed total |
| DashboardRoute.FinancialStatsFor | SpendWise/SpendWise-Backend/routes/dashboardRoute.js:127-139 | `financialStats`; its split and percentage are FinancialStatsSplit |
| DashboardRoute.FinancialStatsSplit | SpendWise/SpendWise-Backend/routes/dashboardRoute.js:127-139 | the two differences are the non-impulse count and amount; the impulse percentage lies in [0, 100] and is 100 iff there are expenses and all are tagged |
| DashboardRoute.RecentTransactions | SpendWise/SpendWise-Backend/routes/dashboardRoute.js:44-46 | the user's five newest expenses, newest first: at most five, taken from the user's expenses, all of them when the user has at most five, and none of the user's expenses newer than the last one shown is left out |
| DashboardRoute.RecentAreTheUsers | SpendWise/SpendWise-Backend/routes/dashboardRoute.js:44-46 | every recent transaction belongs to the queried user |
| DashboardRoute.DashboardAsWritten | SpendWise/SpendWise-Backend/routes/dashboardRoute.js:14 | the handler as written always fails |
| DashboardRoute.DashboardAlwaysFailsAsWritten | SpendWise/SpendWise-Backend/routes/dashboardRoute.js:14 | whatever the expenses, the dashboard answers 500 |
| DashboardRoute.Dashboard | SpendWise/SpendWise-Backend/routes/dashboardRoute.js:9-161 | with the streak statistics supplied, the handler answers |
| DashboardRoute.DashboardAnswers | SpendWise/SpendWise-Backend/routes/dashboardRoute.js:112-152 | the active-voucher count matches the voucher list, the free purchases agree in both places, the total counts the user's expenses, and at most five recent ones are listed |
| DashboardRoute.VoucherStatusOf | SpendWise/SpendWise-Backend/routes/dashboardRoute.js:244-248 | Used iff used; Expired iff unused and now is past a set expiry; Active otherwise |
| DashboardRoute.StatusMatchesRedemption | SpendWise/SpendWise-Backend/routes/streakRoute.js:65-81 | a voucher shows Active iff redeeming it succeeds, Expired iff redemption says expired, and Used iff it says already used |
| DashboardRoute.VoucherHistory | SpendWise/SpendWise-Backend/routes/dashboardRoute.js:238-249 | one view per voucher, in order, copying its id, type, earning time, expiry and used flag, with its status |
| DashboardRoute.DaySetsCoverActiveDays | SpendWise/SpendWise-Backend/routes/dashboardRoute.js:192-205 | together the two day sets are exactly the active days, and their sizes add up to all active days plus the days in both |
| DashboardRoute.SameDayCountsTwice | SpendWise/SpendWise-Backend/routes/dashboardRoute.js:192-205 | a day with a planned and an impulsive expense counts both as an impulse day and as a non-impulse day |
| DashboardRoute.StreakAnalyticsFor | SpendWise/SpendWise-Backend/routes/dashboardRoute.js:164-260 | `GET /streak-analytics`; its figures are StreakAnalyticsFigures |
| DashboardRoute.StreakAnalyticsFigures | SpendWise/SpendWise-Backend/routes/dashboardRoute.js:164-260 | no record gives the empty analytics; otherwise the non-impulse percentage lies in [0, 100] and is 100 iff there are expenses and no impulse day, unused vouchers are those not used, free purchases earned are ⌊completedStreaks/3⌋, and each voucher's status is its `VoucherStatusOf` |
| ImpulseClassifier.CategoryRisk | SpendWise/SpendWise-Frontend/src/components/auth/dashboard/dashboard.tsx:617-636 | category risk in tenths lies in 1..8, and an unknown category gets 5 |
| ImpulseClassifier.TimeRisk | SpendWise/SpendWise-Frontend/src/components/auth/dashboard/dashboard.tsx:628-637 | time risk in tenths lies in 2..7, and an unknown time gets 3 |
| ImpulseClassifier.AmountFactor | SpendWise/SpendWise-Frontend/src/components/auth/dashboard/dashboard.tsx:640-641 | 6 iff the absolute amount exceeds 5000, otherwise 3 |
| ImpulseClassifier.NeedFactor | SpendWise/SpendWise-Frontend/src/components/auth/dashboard/dashboard.tsx:644 | 2 iff the tag is exactly "Need", otherwise 7 |
| ImpulseClassifier.WeekendFactor | SpendWise/SpendWise-Frontend/src/components/auth/dashboard/dashboard.tsx:647-649 | 6 on a weekend, 4 otherwise |
| ImpulseClassifier.ImpulseScore | SpendWise/SpendWise-Frontend/src/components/auth/dashboard/dashboard.tsx:652-657 | the weighted score in thousandths lies in 210..700 |
| ImpulseClassifier.ScoreInThousandths | SpendWise/SpendWise-Frontend/src/components/auth/dashboard/dashboard.tsx:652-657 | the decimal weighted sum equals the integer score divided by 1000 |
| ImpulseClassifier.PredictImpulseSimple | SpendWise/SpendWise-Frontend/src/components/auth/dashboard/dashboard.tsx:616-671 | impulsive iff the weighted sum exceeds 0.5 |
| ImpulseClassifier.Fallbacks | SpendWise/SpendWise-Frontend/src/components/auth/dashboard/dashboard.tsx:636-637 | "Income", although its table value is 0, scores like an unknown category and like "Travel"; an unknown time scores like "Afternoon" |
| ImpulseClassifier.ScoreMonotone | SpendWise/SpendWise-Frontend/src/components/auth/dashboard/dashboard.tsx:652-657 | the score never drops when a factor's risk rises, and turning a want into a need never turns a non-impulse verdict into an impulse one |
| ImpulseClassifier.ReferencePoints | SpendWise/SpendWise-Frontend/src/components/auth/dashboard/dashboard.tsx:652-670 | Shopping/Night/6000/Want/weekend scores 0.67 and is impulsive; Groceries/Morning/≤5000/Need/weekday scores 0.24 and is not |
| HealthScore.FromStored | SpendWise/SpendWise-Frontend/src/components/auth/dashboard/dashboard.tsx:481-489 | a fetched transaction is an income iff its amount is positive, and keeps its amount, date and tag |
| HealthScore.Recent | SpendWise/SpendWise-Frontend/src/components/auth/dashboard/dashboard.tsx:134-136 | the five (or fewer) transactions, newest first |
| HealthScore.RecentKeepsNewest | SpendWise/SpendWise-Frontend/src/components/auth/dashboard/dashboard.tsx:134-136 | the recent ones are taken from the list, all of it when it has at most five, and no transaction newer than the oldest kept is left out |
| HealthScore.IncomeTotal | SpendWise/SpendWise-Frontend/src/components/auth/dashboard/dashboard.tsx:152-156 | the income total is never negative |
| HealthScore.ExpenseTotal | SpendWise/SpendWise-Frontend/src/components/auth/dashboard/dashboard.tsx:152-159 | the signed expense total is never positive |
| HealthScore.NetFlowSplits | SpendWise/SpendWise-Frontend/src/components/auth/dashboard/dashboard.tsx:175 | the net flow is income plus the signed expense total |
| HealthScore.ExpenseAmounts | SpendWise/SpendWise-Frontend/src/components/auth/dashboard/dashboard.tsx:195 | the expense magnitudes are all positive and no more than the transactions |
| HealthScore.ExpenseAmountsSum | SpendWise/SpendWise-Frontend/src/components/auth/dashboard/dashboard.tsx:195-200 | the magnitudes sum to the negated expense total |
| HealthScore.SquaredDeviations | SpendWise/SpendWise-Frontend/src/components/auth/dashboard/dashboard.tsx:201-205 | the sum of squared deviations is never negative |
| HealthScore.BalanceScore | SpendWise/SpendWise-Frontend/src/components/auth/dashboard/dashboard.tsx:145-149 | the balance component lies in {5, 10, 20, 30, 40}; it is 40 iff the balance is at least 5000, and 5 iff it is below 500 |
| HealthScore.TransactionScore | SpendWise/SpendWise-Frontend/src/components/auth/dashboard/dashboard.tsx:161-171 | the tier lies in {0, 5, 10, 15, 20}; it is 20 with no expense, and otherwise at least 10 iff income covers expenses |
| HealthScore.SavingsScore | SpendWise/SpendWise-Frontend/src/components/auth/dashboard/dashboard.tsx:175-192 | a positive net flow scores 5–20 and a non-positive one 0–8, with a zero flow scoring 8 |
| HealthScore.ConsistencyTier | SpendWise/SpendWise-Frontend/src/components/auth/dashboard/dashboard.tsx:198-215 | the consistency tier lies in {0, 5, 10, 15, 20} |
| HealthScore.CvBelowMeansRatio | SpendWise/SpendWise-Frontend/src/components/auth/dashboard/dashboard.tsx:198-215 | comparing the variance with t²·mean² decides exactly `sqrt(variance) / mean < t`, for a non-negative deviation and positive mean and threshold |
| HealthScore.IdenticalExpensesTopTier | SpendWise/SpendWise-Frontend/src/components/auth/dashboard/dashboard.tsx:198-215 | identical expense amounts get the top tier |
| HealthScore.ExpenseAverageIsPositive | SpendWise/SpendWise-Frontend/src/components/auth/dashboard/dashboard.tsx:209 | the average expense is positive, so the `|| 1` fallback never applies |
| HealthScore.Components | SpendWise/SpendWise-Frontend/src/components/auth/dashboard/dashboard.tsx:144-225 | each component stays within its share, and their sum lies in [5, 100] |
| HealthScore.Score | SpendWise/SpendWise-Frontend/src/components/auth/dashboard/dashboard.tsx:130-228 | the score lies in [0, 100] |
| HealthScore.ScoreBreakdown | SpendWise/SpendWise-Frontend/src/components/auth/dashboard/FinanceHealthCare.tsx:84-166 | balance ≤ 40 and each other component ≤ 20 |
| HealthScore.ClampNeverApplies | SpendWise/SpendWise-Frontend/src/components/auth/dashboard/dashboard.tsx:224-228 | the clamp never changes the sum, the score is at least 5, and it equals the breakdown's total whenever both consistency rules apply alike |
| HealthScore.NoRecentExpenseFullTransactionScore | SpendWise/SpendWise-Frontend/src/components/auth/dashboard/FinanceHealthCare.tsx:99-114 | with no expense among the five most recent transactions, the income component is 20 in both the score and the breakdown |
| HealthScore.BreakdownCanDifferFromScore | SpendWise/SpendWise-Frontend/src/components/auth/dashboard/FinanceHealthCare.tsx:143-145 | two equal expenses alone: the breakdown rates consistency 20 and the score rates it 10, so the totals are 25 and 15 |
| HealthScore.HealthStatusOf | SpendWise/SpendWise-Frontend/src/components/auth/dashboard/dashboard.tsx:729-734 | Excellent from 80, Good from 60, Fair from 40, Poor below, each as an iff |
| HealthScore.HealthColor | SpendWise/SpendWise-Frontend/src/components/auth/dashboard/dashboard.tsx:736-741 | each colour corresponds to exactly one health status |
| HealthScore.DetailedHealthMessage | SpendWise/SpendWise-Frontend/src/components/auth/dashboard/FinanceHealthCare.tsx:71-82 | each of the four messages appears iff the health status is the matching one |
| HealthScore.ComponentMessage | SpendWise/SpendWise-Frontend/src/components/auth/dashboard/FinanceHealthCare.tsx:46-69 | the top message iff the score reaches 30 (balance) or 15 (others); the bottom message iff the score is below 10 |
| HealthScore.TipsFollowMessages | SpendWise/SpendWise-Frontend/src/components/auth/dashboard/FinanceHealthCare.tsx:319-355 | a tip is shown iff its component misses the top message, except the savings tip, which is shown iff savings gets the bottom message |
| HealthScore.RecentRows | SpendWise/SpendWise-Frontend/src/components/auth/dashboard/FinanceHealthCare.tsx:392-398 | at most five rows: the list's last elements, in reverse order |
| HealthScore.RecentRowsAreOldest | SpendWise/SpendWise-Frontend/src/components/auth/dashboard/FinanceHealthCare.tsx:392-398 | on a newest-first list, no row of the "Recent Transactions" table is newer than a transaction left out of it |
| HealthScore.BadgeOnFetched | SpendWise/SpendWise-Frontend/src/components/auth/dashboard/FinanceHealthCare.tsx:403-409 | a fetched transaction shows the impulsive badge iff its amount is not positive and it is tagged |
| DashboardSubmit.SignedAmount | SpendWise/SpendWise-Frontend/src/components/auth/dashboard/dashboard.tsx:542-546 | the magnitude is kept; an expense becomes non-positive and an income non-negative |
| DashboardSubmit.PrepareSubmission | SpendWise/SpendWise-Frontend/src/components/auth/dashboard/dashboard.tsx:523-567 | cancelled iff an unconfirmed want; refused iff an expense exceeds the balance; otherwise sends the signed form with the email (or the placeholder), the source app, and a tag iff it is an expense |
| DashboardSubmit.SentExpenseIsCovered | SpendWise/SpendWise-Frontend/src/components/auth/dashboard/dashboard.tsx:548-565 | a sent expense keeps the known balance non-negative, and its tag is the classifier's verdict on the amount typed |
| DashboardSubmit.IncomeIsNeverRefused | SpendWise/SpendWise-Frontend/src/components/auth/dashboard/dashboard.tsx:548-552 | a need or confirmed income is always sent, with a positive sign, whatever the balance |
| DashboardSubmit.DashboardScreen.constructor | SpendWise/SpendWise-Frontend/src/components/auth/dashboard/dashboard.tsx:79-113 | the screen starts with a zero balance, a closed idle form and its default fields |
| DashboardSubmit.DashboardScreen.SubmitTransaction | SpendWise/SpendWise-Frontend/src/components/auth/dashboard/dashboard.tsx:523-612 | sends what `PrepareSubmission` decides; on success adopts the server's balance, resets and closes the form; on any other outcome keeps balance and form; ends idle unless it was cancelled |
| ImpulsePrediction.HourOf | SpendWise/SpendWise-Backend/models/impulsePrediction.js:14-36 | the hour table's values, with 12 exactly for an unknown time of day |
| ImpulsePrediction.CategoryImportance | SpendWise/SpendWise-Backend/models/impulsePrediction.js:21-39 | an importance in [0.2, 1.0], and 0.5 exactly for an unknown category |
| ImpulsePrediction.WeekendFeature | SpendWise/SpendWise-Backend/models/impulsePrediction.js:32-33 | 1 iff the weekday is Sunday or Saturday, otherwise 0 |
| ImpulsePrediction.PrevImpulseFeature | SpendWise/SpendWise-Backend/models/impulsePrediction.js:47 | a missing `Prev_Impulse` gives 0, and a present one is passed through |
| ImpulsePrediction.ProcessTransaction | SpendWise/SpendWise-Backend/models/impulsePrediction.js:13-49 | the feature vector has five entries |
| ImpulsePrediction.FeatureLayout | SpendWise/SpendWise-Backend/models/impulsePrediction.js:42-48 | the vector is amount, hour, weekend, category importance and previous impulse, in that order, each with its fallback |
| ImpulsePrediction.Classify | SpendWise/SpendWise-Backend/models/impulsePrediction.js:58-64 | the probability is returned unchanged, and it is impulsive iff the probability exceeds 0.5 |
| ImpulsePrediction.NoDateMeansWeekday | SpendWise/SpendWise-Backend/models/impulsePrediction.js:32-33 | with no date the weekend feature is 0 |
| ImpulsePrediction.ModelAfterLoad | SpendWise/SpendWise-Backend/models/impulsePrediction.js:53-55 | a loaded model is kept; otherwise the model becomes whatever loading yields |
| ImpulsePrediction.ImpulsePredictor.constructor | SpendWise/SpendWise-Backend/models/impulsePrediction.js:6 | no model is loaded at first |
| ImpulsePrediction.ImpulsePredictor.LoadModel | SpendWise/SpendWise-Backend/models/impulsePrediction.js:8-10 | a successful load sets the model, and a failed one leaves it |
| ImpulsePrediction.ImpulsePredictor.PredictImpulse | SpendWise/SpendWise-Backend/models/impulsePrediction.js:52-65 | loads only when no model is set; fails iff no model is available; otherwise classifies the model's output on the features |
| TransactionModel.NewExpense | SpendWise/SpendWise-Backend/models/transaction.model.js:5-61 | impulse tag and free-purchase flag default to false, and `createdAt` is now |
| TransactionModel.HookInput | SpendWise/SpendWise-Backend/models/transaction.model.js:70-75 | the hook's prediction input copies category, amount and time of day, with no date and no previous impulse |
| TransactionModel.HookVerdict | SpendWise/SpendWise-Backend/models/transaction.model.js:77-81 | there is a verdict iff a model is available |
| TransactionModel.TagAfterPreSave | SpendWise/SpendWise-Backend/models/transaction.model.js:63-88 | the tag after the hook; that an edited tag of an existing document is kept is ModifiedTagKept, and that otherwise the verdict overwrites it is PredictionOverwrites |
| TransactionModel.ModifiedTagKept | SpendWise/SpendWise-Backend/models/transaction.model.js:64-66 | an existing document whose tag was modified keeps its tag |
| TransactionModel.PredictionOverwrites | SpendWise/SpendWise-Backend/models/transaction.model.js:68-87 | otherwise the tag becomes the verdict, or stays as it was when prediction throws |
| TransactionModel.HookIgnoresDate | SpendWise/SpendWise-Backend/models/transaction.model.js:70-75 | the hook's features do not depend on the date; the weekend and previous-impulse features are always 0 |
| TransactionModel.ExpenseDocument.constructor | SpendWise/SpendWise-Backend/routes/transactionRoute.js:62-75 | a fresh document is new with an unmodified tag |
| TransactionModel.ExpenseDocument.PreSave | SpendWise/SpendWise-Backend/models/transaction.model.js:63-88 | a skipped hook changes nothing; otherwise the model is loaded if needed and the tag set as `TagAfterPreSave` decides, with every other field kept |
| TransactionModel.OwnedBy | SpendWise/SpendWise-Backend/routes/transactionRoute.js:105 | the expenses whose `user` is the given id, and only those |
| TransactionModel.WithUserIdField | SpendWise/SpendWise-Backend/routes/analyticsRoute.js:56 | the expenses whose `User_ID` is the given string, and only those |
| TransactionModel.WithUserIdFieldAppend | SpendWise/SpendWise-Backend/routes/analyticsRoute.js:56 | appending an expense extends the query result by it iff its `User_ID` matches |
| TransactionModel.OwnedByAppend | SpendWise/SpendWise-Backend/routes/transactionRoute.js:105 | appending an expense extends the owner's list by it iff it is theirs |
| TransactionModel.SumAmountsAppend | SpendWise/SpendWise-Backend/routes/budgetSummaryRoute.js:19-24 | the `$sum` grows by the appended amount |
| TransactionModel.ExpenseStore.constructor | SpendWise/SpendWise-Backend/models/transaction.model.js:5-61 | the collection starts empty |
| TransactionModel.ExpenseStore.Insert | SpendWise/SpendWise-Backend/routes/transactionRoute.js:77 | a save appends exactly the document |
| TransactionRoute.StatusCode | SpendWise/SpendWise-Backend/routes/transactionRoute.js:30-84 | 404 exactly for a missing user, 500 exactly for a server error, 400 otherwise |
| TransactionRoute.ExpenseFor | SpendWise/SpendWise-Backend/routes/transactionRoute.js:62-75 | the stored transaction copies the request's amount, date and category, with `User_ID` the email and `user` the id |
| TransactionRoute.PatchBalance | SpendWise/SpendWise-Backend/routes/transactionRoute.js:9-28 | a non-number is refused and a missing user is 404, both without change; a number for an existing user always succeeds, and the balance is replaced by the new value, not added to |
| TransactionRoute.PostTransaction | SpendWise/SpendWise-Backend/routes/transactionRoute.js:30-85 | `POST /` succeeds iff every required field is present, the user exists, the type is `income` or `expense`, and the transaction built with the moved balance passes the schema; the refusals are stated by RefusalsChangeNothing and the success by SuccessfulPost |
| TransactionRoute.RefusalsChangeNothing | SpendWise/SpendWise-Backend/routes/transactionRoute.js:45-58 | falsy fields give 400, a missing user 404 and an unknown type 400, each leaving both collections unchanged |
| TransactionRoute.SuccessfulPost | SpendWise/SpendWise-Backend/routes/transactionRoute.js:49-79 | on success, for income and expense alike, only the user's balance changes, by exactly the signed amount; the response carries the new balance; one valid transaction is appended, tagged by the model when it is available; the password hash is kept, as with the intended user hook |
| TransactionRoute.InvalidExpenseStillMovesBalance | SpendWise/SpendWise-Backend/routes/transactionRoute.js:60-83 | a transaction the schema rejects answers 500 and is not stored, yet the balance has already moved |
| TransactionRoute.ListTransactions | SpendWise/SpendWise-Backend/routes/transactionRoute.js:103-111 | `GET /` lists as many transactions as the user owns, newest first; that they are exactly the user's is ListTransactionsSpec |
| TransactionRoute.ListTransactionsSpec | SpendWise/SpendWise-Backend/routes/transactionRoute.js:103-111 | exactly the user's transactions, as a permutation, ordered by date descending |
| TransactionRoute.PatchBalanceRoute | SpendWise/SpendWise-Backend/routes/transactionRoute.js:9-28 | the store and the response are those of `PatchBalance` |
| TransactionRoute.PostTransactionRoute | SpendWise/SpendWise-Backend/routes/transactionRoute.js:30-84 | both stores and the response are those of `PostTransaction`, with the model lazily loaded |
| BudgetSummary.BudgetSummaryFor | SpendWise/SpendWise-Backend/routes/budgetSummaryRoute.js:8-42 | 404 iff no user; otherwise income is 0, expenses are the signed sum of the user's amounts, the total balance is the balance, and savings are balance minus expenses |
| BudgetSummary.NoTransactionsNoExpenses | SpendWise/SpendWise-Backend/routes/budgetSummaryRoute.js:24 | with no transactions, expenses are 0 and savings equal the balance |
| BudgetSummary.PostKeepsSavings | SpendWise/SpendWise-Backend/routes/budgetSummaryRoute.js:29-30 | a successful post moves the total balance by the amount but leaves savings unchanged |
| ChallengeModel.NewChallengeDefaults | SpendWise/SpendWise-Backend/models/challenge.model.js:27-44 | a new challenge is Active at 0 percent with no history, and saves iff its title is present and its points are non-negative |
| ChallengeModel.PreSaveClamp | SpendWise/SpendWise-Backend/models/challenge.model.js:207-212 | with a positive target the percentage becomes min(100, amount/target·100); otherwise nothing changes |
| ChallengeModel.Save | SpendWise/SpendWise-Backend/models/challenge.model.js:27-37 | a save succeeds iff the title, points and percentage pass validation, and what it stores is the document after the percentage hook |
| ChallengeModel.AfterUpdate | SpendWise/SpendWise-Backend/models/challenge.model.js:181-204 | the in-memory effect of `updateProgress`; its history entry, percentage and amount are stated by UpdateRecordsProgress and its completion by CompletionIsSticky |
| ChallengeModel.UpdateRecordsProgress | SpendWise/SpendWise-Backend/models/challenge.model.js:181-194 | exactly one history entry holding the arguments is appended, earlier entries kept; the percentage becomes the given one; the amount changes only when one is given |
| ChallengeModel.CompletionIsSticky | SpendWise/SpendWise-Backend/models/challenge.model.js:197-200 | reaching 100 completes the challenge now; less leaves status and completion date alone, so completion is never reverted |
| ChallengeModel.StoredPercentAtMost100 | SpendWise/SpendWise-Backend/models/challenge.model.js:32-37 | a stored percentage never exceeds 100 |
| ChallengeModel.OverHundredRefused | SpendWise/SpendWise-Backend/models/challenge.model.js:32-37 | a percentage above 100 is refused, even with a target that would cap it |
| ChallengeModel.HookOverridesPercentage | SpendWise/SpendWise-Backend/models/challenge.model.js:207-212 | the hook overrides the reported percentage: 100 without an amount stores 0, and a negative amount stores a negative percentage |
| ChallengeModel.TimeRemaining | SpendWise/SpendWise-Backend/models/challenge.model.js:158-166 | null iff there is no end date; otherwise now plus the result is the end |
| ChallengeModel.DaysRemaining | SpendWise/SpendWise-Backend/models/challenge.model.js:169-178 | null iff there is no end date; otherwise the whole days, rounded up, of the absolute distance |
| ChallengeModel.CeilingDivision | SpendWise/SpendWise-Backend/models/challenge.model.js:175 | `Math.ceil(n / d)` is the least q with n ≤ q·d |
| ChallengeModel.DaysRemainingIgnoresDirection | SpendWise/SpendWise-Backend/models/challenge.model.js:158-178 | a day past and a day ahead both read as one day remaining, and only `timeRemaining` tells them apart |
| ChallengeModel.Challenge.constructor | SpendWise/SpendWise-Backend/models/challenge.model.js:15-115 | a new document has the schema defaults and is not yet stored |
| ChallengeModel.Challenge.UpdateProgress | SpendWise/SpendWise-Backend/models/challenge.model.js:181-212 | the in-memory state is updated, and a save stores it, clamped, iff validation passes |
| ChallengeRoute.StatusCode | SpendWise/SpendWise-Backend/routes/challengeRoute.js:40-129 | 404 for an unknown challenge or no active record, 500 for a server error, 400 otherwise |
| ChallengeRoute.ActiveFor | SpendWise/SpendWise-Backend/routes/challengeRoute.js:12-15 | exactly the user's active records |
| ChallengeRoute.Listed | SpendWise/SpendWise-Backend/routes/challengeRoute.js:18-30 | completed iff progress is exactly 100; the record's end date, else the challenge's |
| ChallengeRoute.ListChallenges | SpendWise/SpendWise-Backend/routes/challengeRoute.js:9-37 | `GET /api/challenges` fails with 500 iff one of the caller's active records refers to a missing challenge; otherwise one entry per active record |
| ChallengeRoute.ListEntries | SpendWise/SpendWise-Backend/routes/challengeRoute.js:18-37 | a server error iff some record's challenge is gone; otherwise one listed entry per record, in order |
| ChallengeRoute.ListingShowsActiveOnly | SpendWise/SpendWise-Backend/routes/challengeRoute.js:9-37 | the listing shows the user's active records only, completed iff progress is 100 |
| ChallengeRoute.FindRecord | SpendWise/SpendWise-Backend/routes/challengeRoute.js:49-52 | finds a record for the user and challenge, active or not, iff one exists |
| ChallengeRoute.FindActiveRecord | SpendWise/SpendWise-Backend/routes/challengeRoute.js:94-98 | finds an active record for the user and challenge iff one exists |
| ChallengeRoute.Join | SpendWise/SpendWise-Backend/routes/challengeRoute.js:40-83 | unknown challenge 404, any existing record 400, both unchanged; success iff neither, adding one active record at 0 percent |
| ChallengeRoute.JoinTwiceFails | SpendWise/SpendWise-Backend/routes/challengeRoute.js:49-56 | a second join fails, even after the first record was deactivated |
| ChallengeRoute.ProgressAsWritten | SpendWise/SpendWise-Backend/routes/challengeRoute.js:86-129 | as written: the same refusals, points are never credited, and an update succeeds iff it is below 100 on an active record of an existing challenge |
| ChallengeRoute.CompletionAlwaysFailsAsWritten | SpendWise/SpendWise-Backend/routes/challengeRoute.js:107-128 | as written, reporting 100 always answers 500 and saves nothing |
| ChallengeRoute.ProgressCorrected | SpendWise/SpendWise-Backend/routes/challengeRoute.js:86-129 | out of range 400 and no active record 404, both unchanged; below 100 the progress is always saved, and the answer succeeds iff the challenge exists; at 100 success iff the user and the challenge exist, and success stamps the completion, credits the challenge's points and answers completed, while a failure changes nothing; points change only at 100 |
| ChallengeRoute.CorrectionOnlyTouchesCompletion | SpendWise/SpendWise-Backend/routes/challengeRoute.js:104-124 | below 100 the corrected route behaves exactly as written |
| ChallengeRoute.CompletionCreditsEachTime | SpendWise/SpendWise-Backend/routes/challengeRoute.js:107-114 | completing credits the challenge's points, and completing again credits them a second time |
| ChallengeRoute.ChallengeBoard.constructor | SpendWise/SpendWise-Backend/routes/challengeRoute.js:59-67 | the board starts with the given challenges and points and no records |
| ChallengeRoute.ChallengeBoard.JoinChallenge | SpendWise/SpendWise-Backend/routes/challengeRoute.js:40-83 | records and response are those of `Join`; challenges and points are unchanged |
| ChallengeRoute.ChallengeBoard.UpdateProgress | SpendWise/SpendWise-Backend/routes/challengeRoute.js:86-129 | records, points and response are those of `ProgressCorrected` |
| UserModel.FindById | SpendWise/SpendWise-Backend/routes/userRoute.js:101-115 | -1 iff no user has the id, otherwise the first index holding it |
| UserModel.FindByEmail | SpendWise/SpendWise-Backend/models/user.model.js:9-13 | -1 iff no user has the email, otherwise the first index holding it |
| UserModel.FindByIdUnique | SpendWise/SpendWise-Backend/models/user.model.js:9-13 | with unique keys, the lookup finds the one user holding the id |
| UserModel.UpdateKeepsUniqueKeys | SpendWise/SpendWise-Backend/models/user.model.js:9-13 | replacing a user by one with the same id and an email no other user has keeps ids and emails unique |
| UserModel.AppendKeepsUniqueKeys | SpendWise/SpendWise-Backend/models/user.model.js:9-13 | adding a user with a fresh id and a fresh email keeps ids and emails unique |
| UserModel.UserStore.constructor | SpendWise/SpendWise-Backend/models/user.model.js:4-29 | the collection starts empty |
| UserModel.PreSaveAsWritten | SpendWise/SpendWise-Backend/models/user.model.js:35-43 | as written, every save replaces the stored password by its hash and changes nothing else |
| UserModel.PreSave | SpendWise/SpendWise-Backend/models/user.model.js:35-43 | as intended, a save hashes the password iff it was modified, and a save that leaves it alone stores the document unchanged |
| UserModel.UserStore.SetBalance | SpendWise/SpendWise-Backend/routes/transactionRoute.js:20-21 | only that user's balance changes, as a save with the intended hook |
| UserRoute.PlainHasNoAt | SpendWise/SpendWise-Backend/routes/userRoute.js:16-21 | a run of the pattern's `[^\s@]` class contains no `@` |
| UserRoute.TwoAtsCountTwice | SpendWise/SpendWise-Backend/routes/userRoute.js:16-21 | two distinct `@` positions mean at least two `@` characters |
| UserRoute.PatternHasNoWhitespace | SpendWise/SpendWise-Backend/routes/userRoute.js:16-21 | a split matching the pattern has no JavaScript whitespace anywhere |
| UserRoute.PatternHasOneAt | SpendWise/SpendWise-Backend/routes/userRoute.js:16-21 | a split matching the pattern has exactly one `@` |
| UserRoute.PatternIsWellFormed | SpendWise/SpendWise-Backend/routes/userRoute.js:16-21 | a matching email has one `@`, no whitespace, a non-empty local part and an inner `.` in the domain |
| UserRoute.WellFormedMatchesPattern | SpendWise/SpendWise-Backend/routes/userRoute.js:16-21 | such a well-formed email matches the pattern |
| UserRoute.MatchesEmailPattern | SpendWise/SpendWise-Backend/routes/userRoute.js:16-17 | the email regex `^[^\s@]+@[^\s@]+\.[^\s@]+$`, as one split into local part, name and tail; EmailPatternCharacterised proves it accepts exactly the well-formed emails |
| UserRoute.EmailPatternCharacterised | SpendWise/SpendWise-Backend/routes/userRoute.js:16-21 | the regular expression accepts exactly the well-formed emails |
| UserRoute.StatusCode | SpendWise/SpendWise-Backend/routes/userRoute.js:7-151 | 404 for a missing user, 401 for bad credentials, 500 for a server error, 400 otherwise |
| UserRoute.Register | SpendWise/SpendWise-Backend/routes/userRoute.js:7-52 | refusals in order (missing field, bad email, taken lower-cased email) leave the store unchanged; past them, success iff the new id is free (otherwise 500); success appends one user with the lower-cased email, the hashed password and balance 0, and answers with balance 0 |
| UserRoute.Login | SpendWise/SpendWise-Backend/routes/userRoute.js:54-99 | the four refusals in the route's order: a missing or malformed email 400, a missing password 400, an unknown lower-cased email 404, a password that does not match the stored hash 401; success iff none applies, answering the user holding the lower-cased email |
| UserRoute.GetProfile | SpendWise/SpendWise-Backend/routes/userRoute.js:101-115 | 404 iff no user has the id; otherwise that user |
| UserRoute.UpdateProfile | SpendWise/SpendWise-Backend/routes/userRoute.js:117-151 | a missing user is 404 with no change; for a found user the update succeeds iff no other user holds the sent email, and otherwise answers 500 with no change; on success each of `fullName`, `email`, `phone` and `address` is replaced when sent and kept when not, the email stored as given, and id, balance and password are kept |
| UserRoute.RegisterKeepsUniqueKeys | SpendWise/SpendWise-Backend/routes/userRoute.js:23-34 | registering keeps ids and emails unique |
| UserRoute.UpdateProfileKeepsUniqueKeys | SpendWise/SpendWise-Backend/routes/userRoute.js:121-137 | a profile update keeps ids and emails unique |
| UserRoute.BalanceSaveLocksOutAsWritten | SpendWise/SpendWise-Backend/models/user.model.js:35-43 | with the hook as written and bcrypt's compare, a user who could log in is refused 401 after a balance save, unless their password equals its own hash |
| UserRoute.BalanceSaveKeepsLogin | SpendWise/SpendWise-Backend/routes/transactionRoute.js:20-21 | with the hook as intended, a balance save keeps the hash, and the same login succeeds and answers the record with the new balance |
| UserRoute.RegisteredUserCanLogIn | SpendWise/SpendWise-Backend/routes/userRoute.js:30-75 | a newly registered user logs in with the same password and any casing of the email |
| UserRoute.UppercaseEmailLocksOut | SpendWise/SpendWise-Backend/routes/userRoute.js:67-70 | login only ever finds users whose stored email has no upper-case letter |
| UserRoute.ProfileUpdateCanLockOut | SpendWise/SpendWise-Backend/routes/userRoute.js:121-130 | after changing the email to one with an upper-case letter, no login reaches that user |
| UserRoute.RegisterRoute | SpendWise/SpendWise-Backend/routes/userRoute.js:7-52 | the store and the response are those of `Register` |
| UserRoute.UpdateProfileRoute | SpendWise/SpendWise-Backend/routes/userRoute.js:117-151 | the store and the response are those of `UpdateProfile` |
| AppRoutes.Split | SpendWise/SpendWise-Frontend/src/App.tsx:17 | `split` always yields at least one segment |
| AppRoutes.SplitCount | SpendWise/SpendWise-Frontend/src/App.tsx:17-19 | the number of segments is the number of separators plus one |
| AppRoutes.WellShapedIffTwoDots | SpendWise/SpendWise-Frontend/src/App.tsx:17-19 | the shape check passes iff the token has exactly two dots, and the `includes('.')` test is implied |
| AppRoutes.Base64UrlToBase64 | SpendWise/SpendWise-Frontend/src/App.tsx:22-23 | same length; each `-` becomes `+` and each `_` becomes `/`; nothing else changes |
| AppRoutes.IsTokenValid | SpendWise/SpendWise-Frontend/src/App.tsx:13-37 | a missing or empty token is invalid; valid iff it is well shaped and its decoded `exp`·1000 exceeds now, any failure to decode giving false |
| AppRoutes.ProtectedRoute | SpendWise/SpendWise-Frontend/src/App.tsx:39-43 | renders iff the token is valid, otherwise redirects to /login |
| AppRoutes.PublicRoute | SpendWise/SpendWise-Frontend/src/App.tsx:45-49 | redirects to /dashboard iff the token is valid, otherwise renders |
| AppRoutes.Route | SpendWise/SpendWise-Frontend/src/App.tsx:75-117 | every path but the four pages redirects to /dashboard when valid and to /login otherwise |
| AppRoutes.RedirectsSettle | SpendWise/SpendWise-Frontend/src/App.tsx:75-117 | following a redirect once always reaches a page that renders |
| AppRoutes.GuardsAreComplementary | SpendWise/SpendWise-Frontend/src/App.tsx:85-107 | the dashboard renders iff the token is valid and the login page iff it is not; budget summary is guarded like the dashboard and register like login |
| Sorting.SortByPermutes | SpendWise/SpendWise-Backend/routes/transactionRoute.js:105 | sorting neither adds nor loses a transaction |
| Sorting.SortByKeepsDistinct | SpendWise/SpendWise-Backend/routes/analyticsRoute.js:102 | sorting distinct day keys leaves them distinct and strictly increasing |

## Left out

- Number formatting: `toFixed` on percentages, averages and projected savings, and the `"n/7"` and `"n/3"` progress strings. The model keeps the exact values.
- Floating point: amounts and scores are exact. `Math.sqrt` in the consistency test is replaced by the equivalent comparison of squares. Inputs whose exact impulse score is 0.5 are classified as not impulsive, since `0.5 > 0.5` is false; evaluated in double precision, those inputs also give exactly 0.5.
- The dashboard's monthly trends and category breakdown (`$year`/`$month` and `$group` by category): they need calendar arithmetic and database aggregation without a property worth proving.
- Time zones and daylight saving: a calendar day is the UTC day number `ms / 86400000`, and `isConsecutiveDay`'s local-time `setHours` is taken to agree with it. Weekday-ness and `now` are inputs.
- JavaScript object quirks: the lookup tables are not consulted for inherited keys such as `constructor`, which in the source yield `NaN` scores. `trim` is not applied, and `Amount` is a number, never a string.
- Authentication: the `protect` middleware, JWT signing and verification, and bcrypt hashing are parameters or left out. bcrypt's salt is not modelled: hashing is a function, and its compare is the `matches` parameter. The user pre-save hook as written re-hashes the stored password on every save (see Findings). The store's `SetBalance`, and so `PATCH /balance` and `POST /`, use the hook as intended and keep the hash. The model therefore lets a user log in after a balance change where the program as written refuses them (`UserRoute.BalanceSaveLocksOutAsWritten`).
- Concurrency and atomicity: the read-modify-write of a streak record and the non-atomic `user.save` followed by `expense.save` are modelled as sequential steps.
- `GET /api/expenses/:id` refers to an undefined variable and is not modelled. The front end's random `refreshScore` is not modelled either.
- Rendering: React components, alerts, console output, the `fetchTransactions` refresh after a submission, and the emoji glyphs (modelled as named tiers).
- Lower-casing covers ASCII letters only.
- AppRoutes.Route: paths are matched literally. The router in the front end also matches them case-insensitively and ignores a trailing slash, so `/Dashboard` and `/dashboard/` reach the guarded page there but redirect in the model.
- `Sorting.SortBy` is stable. The source's sort guarantees no particular order for equal dates.
- The challenge and analytics routes are not mounted in the server's entry point. They are modelled as routes all the same. The user-challenge schema is not part of this model; its fields are those the routes read and write.
- ChallengeRoute.ProgressCorrected: a missing `progress` in the request body (`undefined`, which passes the range check) is not modelled; progress is always a number.
- ChallengeRoute.ProgressCorrected: the correction assumes a numeric `points` field on the user, which the user schema does not declare. With the schema as it is, `user.points += …` gives `NaN`, and strict mode does not persist an undeclared path.
- AnalyticsRoute.RewardsStatsFor: `currentVouchers` is computed by the source but not returned when a record exists; the model computes it as `CurrentVouchers` and does not return it either.
- DashboardRoute.Dashboard: takes the streak statistics as a parameter, because the service the source calls is never defined; the contract states only that the corrected handler answers, and `DashboardAnswers` states what it answers.
- DashboardRoute.StreakAnalyticsFigures: the free-impulse-used count and the copied counters of the streak summary are not stated beyond their definitions.
- Voucher minting and streak counting: no code increments `currentStreak`, `longestStreak` or `completedStreaks`, or mints vouchers, so neither is modelled.
- Transactions posted through `POST /api/expenses` are stored with `User_ID` set to the user's email, while the analytics and dashboard routes query `User_ID` by the user's id. The model keeps both as written, and `AnalyticsRoute.PostedExpenseInvisibleToAnalytics` states the consequence.

## Findings

| source | as written | input that shows it | evidently intended | confidence | as-written member | corrected member |
|---|---|---|---|---|---|---|
| SpendWise/SpendWise-Backend/routes/challengeRoute.js:111 | the completion branch calls `User.findById`, but `User` is never imported, so reporting 100 throws before anything is saved and always answers 500 | an active user-challenge record and `progress = 100` | at 100, stamp the completion date, add the challenge's points to the user and save | high (not executed) | ChallengeRoute.CompletionAlwaysFailsAsWritten | ChallengeRoute.CompletionCreditsEachTime |
| SpendWise/SpendWise-Backend/routes/dashboardRoute.js:14 | `streakService.getStreakStats` is called, but `streakService` is never imported or defined, so `GET /api/dashboard` always answers 500 | any authenticated request, with any expenses | answer with the streak statistics, financial statistics and recent transactions | high (not executed) | DashboardRoute.DashboardAlwaysFailsAsWritten | DashboardRoute.DashboardAnswers |
| SpendWise/SpendWise-Backend/models/user.model.js:35-43 | the hook tests `this.modifiedPaths('password')`, an array and so always truthy; every `user.save()` hashes the stored hash again, including the balance saves at transactionRoute.js:21 and :60 | a registered user posts one transaction with `POST /api/expenses`, then logs in with their password: refused with 401 | hash the password only when it was modified (`isModified('password')`), so a balance save keeps the hash and login keeps working | high (not executed) | UserRoute.BalanceSaveLocksOutAsWritten | UserRoute.BalanceSaveKeepsLogin |
