/**
  The analytics routes: the streak calendar, the comparison of spending on
  streak days and other days, and the reward statistics. Expenses are grouped by
  their UTC calendar day; a day is an impulse day when any of its expenses is
  tagged impulsive. A streak counts consecutive calendar days with activity and
  no impulse purchase. Days are day numbers since the epoch; the calendar's
  `YYYY-MM-DD` keys stand for them.
 */
module AnalyticsRoute {
  import opened Common
  import opened Sorting
  import opened StreakModel
  import opened TransactionModel
  import opened UserModel
  import StreakRoute
  import TransactionRoute
  import ImpulsePrediction

  const DayMs: int := 86400000

  /** `new Date(ms).toISOString().split('T')[0]`, as a day number. */
  function DayOf(ms: int): int {
    ms / DayMs
  }

  /** One day's entry of `expensesByDate`. */
  datatype DayGroup = DayGroup(date: int, impulseCount: nat, nonImpulseCount: nat, totalAmount: real, hasImpulse: bool)

  function EmptyGroup(d: int): DayGroup {
    DayGroup(d, 0, 0, 0.0, false)
  }

  /** One expense added to its day's entry. */
  function AddTo(g: DayGroup, e: Expense): DayGroup {
    var counted := if e.impulseTag
      then g.(impulseCount := g.impulseCount + 1, hasImpulse := true)
      else g.(nonImpulseCount := g.nonImpulseCount + 1);
    counted.(totalAmount := counted.totalAmount + e.amount)
  }

  /** The expenses dated on day `d`, in order. */
  function OnDay(s: seq<Expense>, d: int): (r: seq<Expense>)
    ensures forall e :: e in r <==> e in s && DayOf(e.date) == d
  {
    if s == [] then []
    else
      var last := s[|s| - 1];
      OnDay(s[..|s| - 1], d) + (if DayOf(last.date) == d then [last] else [])
  }

  /** The entry for day `d` after every expense of `s` was added. */
  function Group(s: seq<Expense>, d: int): DayGroup {
    if s == [] then EmptyGroup(d)
    else
      var last := s[|s| - 1];
      var g := Group(s[..|s| - 1], d);
      if DayOf(last.date) == d then AddTo(g, last) else g
  }

  /** The days of `s` in order of first appearance, the order of the keys of
      `expensesByDate`. */
  function Days(s: seq<Expense>): (r: seq<int>)
    ensures forall d :: d in r <==> exists i :: 0 <= i < |s| && DayOf(s[i].date) == d
    ensures forall i, j :: 0 <= i < j < |r| ==> r[i] != r[j]
  {
    if s == [] then []
    else
      var init := s[..|s| - 1];
      var prev := Days(init);
      var d := DayOf(s[|s| - 1].date);
      assert forall i :: 0 <= i < |init| ==> init[i] == s[i];
      if d in prev then prev else prev + [d]
  }

  /** `Object.values(expensesByDate)` */
  function Grouped(s: seq<Expense>): (r: seq<DayGroup>)
    ensures |r| == |Days(s)|
    ensures forall i :: 0 <= i < |r| ==> r[i] == Group(s, Days(s)[i])
  {
    var days := Days(s);
    seq(|days|, i requires 0 <= i < |days| => Group(s, days[i]))
  }

  lemma AbsentDayIsEmpty(s: seq<Expense>, d: int)
    requires d !in Days(s)
    ensures Group(s, d) == EmptyGroup(d)
  {
    if s != [] {
      var init := s[..|s| - 1];
      assert forall i :: 0 <= i < |init| ==> init[i] == s[i];
      AbsentDayIsEmpty(init, d);
    }
  }

  /** An entry holds its own day, counts each of that day's expenses once as impulse
      or not, totals their amounts, and is an impulse day exactly when one of them
      is tagged impulsive. */
  lemma {:induction false} GroupContents(s: seq<Expense>, d: int)
    ensures var g := Group(s, d); var es := OnDay(s, d);
      && g.date == d
      && g.impulseCount + g.nonImpulseCount == |es|
      && g.totalAmount == SumAmounts(es)
      && (g.hasImpulse <==> exists i :: 0 <= i < |es| && es[i].impulseTag)
      && (g.hasImpulse <==> g.impulseCount > 0)
  {
    if s != [] {
      var init := s[..|s| - 1];
      var last := s[|s| - 1];
      GroupContents(init, d);
      var prev := OnDay(init, d);
      if DayOf(last.date) == d {
        SumAmountsAppend(prev, last);
        var es := prev + [last];
        assert OnDay(s, d) == es;
        assert forall i :: 0 <= i < |prev| ==> es[i] == prev[i];
        assert es[|prev|] == last;
      } else {
        assert OnDay(s, d) == prev;
      }
    }
  }

  /** The grouping loop of both routes: a dictionary keyed by day, whose keys keep
      their insertion order. */
  method GroupByDate(s: seq<Expense>) returns (groups: seq<DayGroup>)
    ensures groups == Grouped(s)
  {
    var byDate: map<int, DayGroup> := map[];
    var order: seq<int> := [];
    var i := 0;
    while i < |s|
      invariant 0 <= i <= |s|
      invariant order == Days(s[..i])
      invariant forall d :: d in order <==> d in byDate
      invariant forall d :: d in byDate ==> byDate[d] == Group(s[..i], d)
    {
      var e := s[i];
      var d := DayOf(e.date);
      assert s[..i + 1][..i] == s[..i];
      assert s[..i + 1][i] == e;
      if d !in byDate {
        AbsentDayIsEmpty(s[..i], d);
        byDate := byDate[d := EmptyGroup(d)];
        order := order + [d];
      }
      byDate := byDate[d := AddTo(byDate[d], e)];
      i := i + 1;
    }
    assert s[..|s|] == s;
    forall j | 0 <= j < |order|
      ensures order[j] in byDate
    {
      assert order[j] in order;
    }
    groups := seq(|order|, j requires 0 <= j < |order| => byDate[order[j]]);
  }

  /** Some entry of `gs` is for day `d`. */
  predicate HasEntryOn(gs: seq<DayGroup>, d: int) {
    exists i :: 0 <= i < |gs| && gs[i].date == d
  }

  /** Some expense of `s` is dated on day `d`. */
  predicate HasExpenseOn(s: seq<Expense>, d: int) {
    exists i :: 0 <= i < |s| && DayOf(s[i].date) == d
  }

  /** Every day of `s` has exactly one entry, and each entry is that day's group. */
  lemma GroupedDaysAreDistinct(s: seq<Expense>)
    ensures DistinctKeys(Grouped(s), (g: DayGroup) => g.date)
    ensures forall i :: 0 <= i < |Grouped(s)| ==> Grouped(s)[i] == Group(s, Grouped(s)[i].date)
    ensures forall d :: HasEntryOn(Grouped(s), d) <==> HasExpenseOn(s, d)
  {
    var gs := Grouped(s);
    var days := Days(s);
    forall i | 0 <= i < |gs|
      ensures gs[i].date == days[i]
    {
      GroupContents(s, days[i]);
    }
    forall d | HasExpenseOn(s, d)
      ensures HasEntryOn(gs, d)
    {
      assert d in days;
      var k :| 0 <= k < |days| && days[k] == d;
      assert gs[k].date == d;
    }
    forall d | HasEntryOn(gs, d)
      ensures HasExpenseOn(s, d)
    {
      var k :| 0 <= k < |gs| && gs[k].date == d;
      assert days[k] in days;
    }
  }

  /** `isConsecutiveDay`: the two days are one apart, in either order. */
  predicate IsConsecutiveDay(d1: int, d2: int) {
    AbsInt(d2 - d1) == 1
  }

  /** The running streak after entry `i` of the date-sorted entries: 0 on an impulse
      day, 1 at the first day or after an impulse day or a gap, and one more than
      the previous day's otherwise. */
  function StreakAt(gs: seq<DayGroup>, i: nat): (r: nat)
    requires i < |gs|
    ensures r == 0 <==> gs[i].hasImpulse
  {
    if gs[i].hasImpulse then 0
    else if i == 0 || gs[i - 1].hasImpulse then 1
    else if IsConsecutiveDay(gs[i - 1].date, gs[i].date) then StreakAt(gs, i - 1) + 1
    else 1
  }

  /** On a day that is not an impulse day, the streak is the length of the longest
      run of days ending there that are all free of impulse purchases and each one
      day after the one before. */
  lemma {:induction false} StreakIsRunLength(gs: seq<DayGroup>, i: nat)
    requires i < |gs| && !gs[i].hasImpulse
    ensures var k := StreakAt(gs, i);
      && 1 <= k <= i + 1
      && (forall j :: i - k < j <= i ==> !gs[j].hasImpulse)
      && (forall j :: i - k + 1 < j <= i ==> IsConsecutiveDay(gs[j - 1].date, gs[j].date))
      && (i - k + 1 == 0 || gs[i - k].hasImpulse || !IsConsecutiveDay(gs[i - k].date, gs[i - k + 1].date))
  {
    if i > 0 && !gs[i - 1].hasImpulse && IsConsecutiveDay(gs[i - 1].date, gs[i].date) {
      StreakIsRunLength(gs, i - 1);
    }
  }

  /** When the days are in strictly increasing order, a streak of `k` ending on day
      `d` covers exactly the calendar days `d − k + 1` to `d`. */
  lemma {:induction false} StreakCoversCalendarDays(gs: seq<DayGroup>, i: nat)
    requires i < |gs| && !gs[i].hasImpulse
    requires SortedBy(gs, (g: DayGroup) => g.date) && DistinctKeys(gs, (g: DayGroup) => g.date)
    ensures forall j :: 0 <= j <= i && i - StreakAt(gs, i) < j ==> gs[j].date == gs[i].date - (i - j)
  {
    if i > 0 && !gs[i - 1].hasImpulse && IsConsecutiveDay(gs[i - 1].date, gs[i].date) {
      StreakCoversCalendarDays(gs, i - 1);
      assert gs[i - 1].date <= gs[i].date && gs[i - 1].date != gs[i].date;
    }
  }

  datatype Milestone = WeeklyMilestone | FreeImpulse

  /** The milestone a day with streak `s` carries: free impulse at 21, weekly at
      every other positive multiple of 7. */
  function MilestoneFor(s: nat): (m: Option<Milestone>)
    ensures m.Some? <==> s > 0 && s % 7 == 0
    ensures m == Some(FreeImpulse) <==> s == 21
  {
    if s == 21 then Some(FreeImpulse)
    else if s > 0 && s % 7 == 0 then Some(WeeklyMilestone)
    else None
  }

  /** One element of `calendarData`: the day's entry and, when the user has a streak
      record, its `streakDay` and milestone. */
  datatype CalendarEntry = CalendarEntry(group: DayGroup, streakDay: Option<nat>, milestone: Option<Milestone>)

  /** Entry `i` of the date-sorted days, with its streak and milestone. */
  function EntryAt(gs: seq<DayGroup>, i: nat): CalendarEntry
    requires i < |gs|
  {
    CalendarEntry(gs[i], Some(StreakAt(gs, i)), MilestoneFor(StreakAt(gs, i)))
  }

  function Annotated(gs: seq<DayGroup>): (r: seq<CalendarEntry>)
    ensures |r| == |gs|
    ensures forall i :: 0 <= i < |gs| ==> r[i] == EntryAt(gs, i)
  {
    seq(|gs|, i requires 0 <= i < |gs| => EntryAt(gs, i))
  }

  function Unannotated(gs: seq<DayGroup>): (r: seq<CalendarEntry>)
    ensures |r| == |gs|
  {
    seq(|gs|, i requires 0 <= i < |gs| => CalendarEntry(gs[i], None, None))
  }

  /** The expenses the calendar reads: `User_ID` equal to the user's id, sorted
      by date. */
  function CalendarExpenses(expenses: seq<Expense>, userId: string): seq<Expense> {
    SortBy(WithUserIdField(expenses, userId), (e: Expense) => e.date)
  }

  /** `GET /streak-calendar` */
  function StreakCalendarFor(expenses: seq<Expense>, userId: string, streak: Option<StreakRecord>): seq<CalendarEntry> {
    var mine := CalendarExpenses(expenses, userId);
    if mine == [] then []
    else if streak.None? then Unannotated(Grouped(mine))
    else Annotated(SortBy(Grouped(mine), (g: DayGroup) => g.date))
  }

  /** The annotation loop: it reads the previous entry's `streakDay` as written
      in the iteration before. */
  method AnnotateStreaks(gs: seq<DayGroup>) returns (out: seq<CalendarEntry>)
    ensures out == Annotated(gs)
  {
    var currentStreak: nat := 0;
    out := [];
    for i := 0 to |gs|
      invariant |out| == i
      invariant forall j :: 0 <= j < i ==> out[j] == EntryAt(gs, j)
      invariant i > 0 ==> currentStreak == StreakAt(gs, i - 1)
    {
      var current := gs[i];
      if current.hasImpulse {
        currentStreak := 0;
        out := out + [CalendarEntry(current, Some(0), None)];
        continue;
      }
      if i == 0 || out[i - 1].streakDay == Some(0) {
        currentStreak := 1;
      } else if IsConsecutiveDay(gs[i - 1].date, current.date) {
        currentStreak := currentStreak + 1;
      } else {
        currentStreak := 1;
      }
      assert currentStreak == StreakAt(gs, i);
      var milestone: Option<Milestone> := None;
      if currentStreak % 7 == 0 {
        milestone := Some(WeeklyMilestone);
      }
      if currentStreak == 21 {
        milestone := Some(FreeImpulse);
      }
      assert milestone == MilestoneFor(currentStreak);
      out := out + [CalendarEntry(current, Some(currentStreak), milestone)];
    }
  }

  /** `GET /streak-calendar` with the query results as inputs. */
  method StreakCalendar(expenses: seq<Expense>, userId: string, streak: Option<StreakRecord>)
    returns (calendar: seq<CalendarEntry>)
    ensures calendar == StreakCalendarFor(expenses, userId, streak)
  {
    var mine := CalendarExpenses(expenses, userId);
    if |mine| == 0 {
      return [];
    }
    var groups := GroupByDate(mine);
    if streak.None? {
      return Unannotated(groups);
    }
    var sorted := SortBy(groups, (g: DayGroup) => g.date);
    calendar := AnnotateStreaks(sorted);
  }

  /** Some expense of the user's is dated on day `d`. */
  predicate UserActiveOn(expenses: seq<Expense>, userId: string, d: int) {
    exists e :: e in expenses && e.userIdField == userId && DayOf(e.date) == d
  }

  lemma CalendarExpensesAreTheUsers(expenses: seq<Expense>, userId: string)
    ensures forall d :: HasExpenseOn(CalendarExpenses(expenses, userId), d) <==> UserActiveOn(expenses, userId, d)
  {
    var mine := CalendarExpenses(expenses, userId);
    var theirs := WithUserIdField(expenses, userId);
    SortByPermutes(theirs, (e: Expense) => e.date);
    ElementsOfPermutation(mine, theirs);
    ElementsOfPermutation(theirs, mine);
    forall d | UserActiveOn(expenses, userId, d)
      ensures HasExpenseOn(mine, d)
    {
      var e :| e in expenses && e.userIdField == userId && DayOf(e.date) == d;
      assert e in theirs;
      var k :| 0 <= k < |theirs| && theirs[k] == e;
      assert theirs[k] in mine;
    }
    forall d | HasExpenseOn(mine, d)
      ensures UserActiveOn(expenses, userId, d)
    {
      var k :| 0 <= k < |mine| && DayOf(mine[k].date) == d;
      assert mine[k] in theirs;
    }
  }

  /** Sorting the entries by day keeps the same entries, now in strictly
      increasing order of day. */
  lemma SortedGroups(gs: seq<DayGroup>)
    requires DistinctKeys(gs, (g: DayGroup) => g.date)
    ensures var sorted := SortBy(gs, (g: DayGroup) => g.date);
      && (forall i :: 0 <= i < |sorted| ==> sorted[i] in gs)
      && (forall i :: 0 <= i < |gs| ==> gs[i] in sorted)
      && (forall i, j :: 0 <= i < j < |sorted| ==> sorted[i].date < sorted[j].date)
  {
    var key := (g: DayGroup) => g.date;
    var sorted := SortBy(gs, key);
    SortByPermutes(gs, key);
    SortByKeepsDistinct(gs, key);
    ElementsOfPermutation(sorted, gs);
    ElementsOfPermutation(gs, sorted);
  }

  /** The day entries a calendar shows. */
  function GroupsOf(cal: seq<CalendarEntry>): (r: seq<DayGroup>)
    ensures |r| == |cal|
    ensures forall i :: 0 <= i < |cal| ==> r[i] == cal[i].group
  {
    seq(|cal|, i requires 0 <= i < |cal| => cal[i].group)
  }

  /** Any arrangement of the entries of `Grouped(s)` has one entry per day of `s`,
      each that day's group. */
  lemma {:induction false} ArrangementOfGrouped(s: seq<Expense>, groups: seq<DayGroup>)
    requires |groups| == |Grouped(s)|
    requires forall i :: 0 <= i < |groups| ==> groups[i] in Grouped(s)
    requires forall i :: 0 <= i < |Grouped(s)| ==> Grouped(s)[i] in groups
    requires DistinctKeys(groups, (g: DayGroup) => g.date)
    ensures forall i :: 0 <= i < |groups| ==> groups[i] == Group(s, groups[i].date)
    ensures forall d :: HasEntryOn(groups, d) <==> HasExpenseOn(s, d)
  {
    var gs := Grouped(s);
    GroupedDaysAreDistinct(s);
    forall i | 0 <= i < |groups|
      ensures groups[i] == Group(s, groups[i].date)
    {
      var k :| 0 <= k < |gs| && gs[k] == groups[i];
    }
    forall d ensures HasEntryOn(groups, d) <==> HasEntryOn(gs, d) {
      if HasEntryOn(gs, d) {
        var k :| 0 <= k < |gs| && gs[k].date == d;
        var m :| 0 <= m < |groups| && groups[m] == gs[k];
      }
      if HasEntryOn(groups, d) {
        var m :| 0 <= m < |groups| && groups[m].date == d;
        var k :| 0 <= k < |gs| && gs[k] == groups[m];
      }
    }
  }

  /** The calendar has one entry per day on which the user has an expense, each
      holding that day's totals. */
  lemma CalendarDays(expenses: seq<Expense>, userId: string, streak: Option<StreakRecord>)
    ensures var mine := CalendarExpenses(expenses, userId);
      var cal := GroupsOf(StreakCalendarFor(expenses, userId, streak));
      && |cal| == |Days(mine)|
      && (forall i :: 0 <= i < |cal| ==> cal[i] == Group(mine, cal[i].date))
      && DistinctKeys(cal, (g: DayGroup) => g.date)
      && (forall d :: HasEntryOn(cal, d) <==> UserActiveOn(expenses, userId, d))
  {
    var mine := CalendarExpenses(expenses, userId);
    var gs := Grouped(mine);
    var cal := GroupsOf(StreakCalendarFor(expenses, userId, streak));
    CalendarExpensesAreTheUsers(expenses, userId);
    GroupedDaysAreDistinct(mine);
    if mine == [] {
      assert Days(mine) == [];
      forall d ensures !UserActiveOn(expenses, userId, d) {
        assert !HasExpenseOn(mine, d);
      }
    } else if streak.None? {
      assert cal == gs;
    } else {
      var sorted := SortBy(gs, (g: DayGroup) => g.date);
      SortedGroups(gs);
      SortByKeepsDistinct(gs, (g: DayGroup) => g.date);
      assert cal == sorted;
      ArrangementOfGrouped(mine, sorted);
    }
  }

  /** Without a streak record the calendar carries no streak fields; with one its days
      are in strictly increasing order, and a day has streak 0 exactly when it has an
      impulse expense, in which case it has no milestone. That every other day's
      streak is its run length is StreakIsRunLength. */
  lemma CalendarStreaks(expenses: seq<Expense>, userId: string, streak: Option<StreakRecord>)
    ensures var cal := StreakCalendarFor(expenses, userId, streak);
      && (streak.None? ==> forall i :: 0 <= i < |cal| ==> cal[i].streakDay.None? && cal[i].milestone.None?)
      && (streak.Some? ==> forall i, j :: 0 <= i < j < |cal| ==> cal[i].group.date < cal[j].group.date)
      && (streak.Some? ==> forall i :: 0 <= i < |cal| ==>
            (cal[i].streakDay == Some(0) <==> cal[i].group.hasImpulse)
            && (cal[i].group.hasImpulse ==> cal[i].milestone.None?))
  {
    var mine := CalendarExpenses(expenses, userId);
    if mine != [] && streak.Some? {
      GroupedDaysAreDistinct(mine);
      SortedGroups(Grouped(mine));
    }
  }

  /** The running streak of `/streak-impact` and the counts it accumulates over the
      first `n` days. */
  datatype Tally = Tally(streakDays: nat, nonStreakDays: nat, streakSpending: real, nonStreakSpending: real)

  /** A day counts as a streak day when it is free of impulse purchases and the
      running streak has reached 3. */
  predicate IsStreakDay(gs: seq<DayGroup>, i: nat)
    requires i < |gs|
  {
    !gs[i].hasImpulse && StreakAt(gs, i) >= 3
  }

  function TallyOf(gs: seq<DayGroup>, n: nat): (t: Tally)
    requires n <= |gs|
    ensures t.streakDays + t.nonStreakDays == n
  {
    if n == 0 then Tally(0, 0, 0.0, 0.0)
    else
      var t := TallyOf(gs, n - 1);
      var amount := gs[n - 1].totalAmount;
      if IsStreakDay(gs, n - 1) then t.(streakDays := t.streakDays + 1, streakSpending := t.streakSpending + amount)
      else t.(nonStreakDays := t.nonStreakDays + 1, nonStreakSpending := t.nonStreakSpending + amount)
  }

  /** The `impact` object, before the figures are formatted. */
  datatype Impact = Impact(
    streakDays: nat,
    nonStreakDays: nat,
    avgDailyStreakSpending: real,
    avgDailyNonStreakSpending: real,
    savingsPercentage: real,
    projectedAnnualSavings: real)

  function Summarise(t: Tally): Impact {
    var avgStreak := if t.streakDays > 0 then t.streakSpending / t.streakDays as real else 0.0;
    var avgNon := if t.nonStreakDays > 0 then t.nonStreakSpending / t.nonStreakDays as real else 0.0;
    var savings := if avgNon > 0.0 && avgStreak > 0.0 then (avgNon - avgStreak) / avgNon * 100.0 else 0.0;
    var daily := avgNon - avgStreak;
    Impact(t.streakDays, t.nonStreakDays, avgStreak, avgNon, savings, if daily > 0.0 then daily * 365.0 else 0.0)
  }

  /** The days `/streak-impact` walks: the user's expenses in collection order,
      grouped by day and sorted. */
  function ImpactDays(expenses: seq<Expense>, userId: string): seq<DayGroup> {
    SortBy(Grouped(WithUserIdField(expenses, userId)), (g: DayGroup) => g.date)
  }

  /** `GET /streak-impact` */
  function StreakImpactFor(expenses: seq<Expense>, userId: string): Impact {
    if WithUserIdField(expenses, userId) == [] then Impact(0, 0, 0.0, 0.0, 0.0, 0.0)
    else
      var gs := ImpactDays(expenses, userId);
      Summarise(TallyOf(gs, |gs|))
  }

  /** The accumulation loop of `/streak-impact`, which reads `hasImpulse` of the
      previous day where the calendar reads its `streakDay`. */
  method WalkImpact(gs: seq<DayGroup>) returns (t: Tally)
    ensures t == TallyOf(gs, |gs|)
  {
    var streakDays: nat := 0;
    var nonStreakDays: nat := 0;
    var streakSpending := 0.0;
    var nonStreakSpending := 0.0;
    var currentStreak: nat := 0;
    for i := 0 to |gs|
      invariant TallyOf(gs, i) == Tally(streakDays, nonStreakDays, streakSpending, nonStreakSpending)
      invariant i > 0 ==> currentStreak == StreakAt(gs, i - 1)
    {
      var current := gs[i];
      if current.hasImpulse {
        currentStreak := 0;
        nonStreakDays := nonStreakDays + 1;
        nonStreakSpending := nonStreakSpending + current.totalAmount;
        assert !IsStreakDay(gs, i);
        continue;
      }
      if i == 0 || gs[i - 1].hasImpulse {
        currentStreak := 1;
      } else if IsConsecutiveDay(gs[i - 1].date, current.date) {
        currentStreak := currentStreak + 1;
      } else {
        currentStreak := 1;
      }
      assert currentStreak == StreakAt(gs, i);
      if currentStreak >= 3 {
        streakDays := streakDays + 1;
        streakSpending := streakSpending + current.totalAmount;
      } else {
        nonStreakDays := nonStreakDays + 1;
        nonStreakSpending := nonStreakSpending + current.totalAmount;
      }
    }
    t := Tally(streakDays, nonStreakDays, streakSpending, nonStreakSpending);
  }

  /** `GET /streak-impact`: the user's days are grouped, sorted and walked. */
  method StreakImpact(expenses: seq<Expense>, userId: string) returns (impact: Impact)
    ensures impact == StreakImpactFor(expenses, userId)
  {
    var mine := WithUserIdField(expenses, userId);
    if |mine| == 0 {
      return Impact(0, 0, 0.0, 0.0, 0.0, 0.0);
    }
    var groups := GroupByDate(mine);
    var gs := SortBy(groups, (g: DayGroup) => g.date);
    var t := WalkImpact(gs);
    impact := Summarise(t);
  }

  /** Every day the user has an expense on is counted once, as a streak day or not. */
  lemma ImpactCountsEveryDay(expenses: seq<Expense>, userId: string)
    ensures var r := StreakImpactFor(expenses, userId);
      r.streakDays + r.nonStreakDays == |Days(WithUserIdField(expenses, userId))|
  {
    var mine := WithUserIdField(expenses, userId);
    if mine != [] {
      var gs := ImpactDays(expenses, userId);
      SortByPermutes(Grouped(mine), (g: DayGroup) => g.date);
    } else {
      assert Days(mine) == [];
    }
  }

  /** The projection is never negative and is positive exactly when streak days cost
      less; a savings percentage is reported only when both averages are positive,
      stays below 100, and is positive exactly when streak days cost less. */
  lemma SummaryFigures(t: Tally)
    ensures var r := Summarise(t);
      && r.projectedAnnualSavings >= 0.0
      && (r.projectedAnnualSavings > 0.0 <==> r.avgDailyStreakSpending < r.avgDailyNonStreakSpending)
      && (r.savingsPercentage != 0.0 ==> r.avgDailyNonStreakSpending > 0.0 && r.avgDailyStreakSpending > 0.0)
      && r.savingsPercentage < 100.0
      && (r.avgDailyNonStreakSpending > 0.0 && r.avgDailyStreakSpending > 0.0 ==>
            (r.savingsPercentage > 0.0 <==> r.avgDailyStreakSpending < r.avgDailyNonStreakSpending))
  {
    var r := Summarise(t);
    var n := r.avgDailyNonStreakSpending;
    var m := r.avgDailyStreakSpending;
    if n > 0.0 && m > 0.0 {
      var q := (n - m) / n;
      assert q * n == n - m;
      assert (1.0 - q) * n == m;
      ProductSign(1.0 - q, n);
      ProductSign(q, n);
    }
  }

  lemma ProductSign(x: real, n: real)
    requires n > 0.0
    ensures x > 0.0 ==> x * n > 0.0
    ensures x <= 0.0 ==> x * n <= 0.0
  {
  }

  /** Both routes compute the same streak: the impact walk's streak days are the
      calendar's days whose streak is at least 3. */
  lemma ImpactAgreesWithCalendar(gs: seq<DayGroup>, i: nat)
    requires i < |gs|
    ensures IsStreakDay(gs, i) <==> Annotated(gs)[i].streakDay.value >= 3
  {
  }

  /** The `stats` object with a streak record, before the rates are formatted. */
  datatype RewardsStats =
    | NoRecordStats
    | Stats(
        totalVouchersEarned: nat,
        totalVouchersUsed: nat,
        unusedVouchers: int,
        totalFreeImpulsesEarned: int,
        totalFreeImpulsesUsed: nat,
        currentFreeImpulses: int,
        voucherUsageRate: real,
        freeImpulseUsageRate: real)

  function UsedCount(vs: seq<Voucher>): (n: nat)
    ensures n <= |vs|
  {
    if vs == [] then 0
    else UsedCount(vs[..|vs| - 1]) + (if vs[|vs| - 1].used then 1 else 0)
  }

  function UnusedCount(vs: seq<Voucher>): (n: nat)
    ensures n <= |vs|
  {
    if vs == [] then 0
    else UnusedCount(vs[..|vs| - 1]) + (if vs[|vs| - 1].used then 0 else 1)
  }

  lemma {:induction false} UsedAndUnusedPartition(vs: seq<Voucher>)
    ensures UsedCount(vs) + UnusedCount(vs) == |vs|
  {
    if vs != [] {
      UsedAndUnusedPartition(vs[..|vs| - 1]);
    }
  }

  /** `currentVouchers`: unused and not past `expiresAt`. A voucher without an expiry
      date compares against an invalid date and is never current. */
  predicate IsCurrent(v: Voucher, now: int) {
    !v.used && v.expiresAt.Some? && now <= v.expiresAt.value
  }

  function CurrentVouchers(vs: seq<Voucher>, now: int): (n: nat)
    ensures n <= UnusedCount(vs)
  {
    if vs == [] then 0
    else CurrentVouchers(vs[..|vs| - 1], now) + (if IsCurrent(vs[|vs| - 1], now) then 1 else 0)
  }

  /** `Expense.countDocuments({ User_ID, free_impulse_purchase: true })` */
  function FreeImpulseCount(s: seq<Expense>): (n: nat)
    ensures n <= |s|
  {
    if s == [] then 0
    else FreeImpulseCount(s[..|s| - 1]) + (if s[|s| - 1].freeImpulsePurchase then 1 else 0)
  }

  /** `used / earned * 100`, or 0 when nothing was earned. */
  function UsageRate(used: nat, earned: int): (r: real)
    ensures r >= 0.0
    ensures earned <= 0 ==> r == 0.0
    ensures used <= earned ==> r <= 100.0 && (r == 100.0 <==> earned > 0 && used == earned)
    ensures 0 < earned < used ==> r > 100.0
  {
    if earned > 0 then
      var q := used as real / earned as real;
      assert used <= earned ==> q <= 1.0 && (q == 1.0 <==> used == earned);
      assert q * earned as real == used as real;
      assert (q - 1.0) * earned as real == (used - earned) as real;
      q * 100.0
    else 0.0
  }

  /** `Math.floor(n / 3)` */
  function FloorThird(n: int): (q: int)
    ensures q * 3 <= n < q * 3 + 3
  {
    n / 3
  }

  /** `GET /rewards-stats` */
  function RewardsStatsFor(streak: Option<StreakRecord>, expenses: seq<Expense>, userId: string): (r: RewardsStats)
    ensures r.NoRecordStats? <==> streak.None?
    ensures r.Stats? ==>
      var vs := streak.value.vouchersEarned;
      && r.totalVouchersEarned == |vs|
      && r.totalVouchersUsed == UsedCount(vs)
      && r.unusedVouchers == UnusedCount(vs)
      && 0 <= r.unusedVouchers <= r.totalVouchersEarned
      && 0.0 <= r.voucherUsageRate <= 100.0
      && (r.voucherUsageRate == 100.0 <==> |vs| > 0 && UnusedCount(vs) == 0)
      && r.totalFreeImpulsesEarned * 3 <= streak.value.completedStreaks < r.totalFreeImpulsesEarned * 3 + 3
      && r.totalFreeImpulsesUsed == FreeImpulseCount(WithUserIdField(expenses, userId))
      && r.currentFreeImpulses == streak.value.freeImpulsePurchases
      && r.freeImpulseUsageRate >= 0.0
  {
    match streak
    case None => NoRecordStats
    case Some(rec) =>
      var vs := rec.vouchersEarned;
      var used := FreeImpulseCount(WithUserIdField(expenses, userId));
      var usedVouchers := UsedCount(vs);
      UsedAndUnusedPartition(vs);
      var freeEarned := FloorThird(rec.completedStreaks);
      Stats(|vs|, usedVouchers, |vs| - usedVouchers, freeEarned, used,
        rec.freeImpulsePurchases, UsageRate(usedVouchers, |vs|), UsageRate(used, freeEarned))
  }

  /** A current voucher can be redeemed at the same moment (when it is the first with
      its id), while a voucher without an expiry can be redeemed yet is not counted
      as current. */
  lemma CurrentMeansRedeemable(rec: StreakRecord, now: int)
    ensures forall k :: (0 <= k < |rec.vouchersEarned| && IsCurrent(rec.vouchersEarned[k], now)
      && StreakRoute.FindVoucher(rec.vouchersEarned, rec.vouchersEarned[k].id) == k) ==>
        StreakRoute.RedeemVoucher(Some(rec), rec.vouchersEarned[k].id, now).Ok?
    ensures var v := Voucher("v", Some(Weekly), now, false, None);
      && !IsCurrent(v, now)
      && StreakRoute.RedeemVoucher(Some(rec.(vouchersEarned := [v])), "v", now).Ok?
  {
  }

  /** An expense recorded through the transaction route carries the user's email in
      `User_ID`, so for a user whose email differs from their id the analytics
      queries, which look up `User_ID` by id, do not see it. */
  lemma PostedExpenseInvisibleToAnalytics(users: seq<User>, expenses: seq<Expense>, userId: string,
                                          req: TransactionRoute.TransactionRequest, now: int, model: Option<ImpulsePrediction.Model>)
    requires TransactionRoute.PostTransaction(users, expenses, userId, req, now, model).response.Ok?
    requires users[FindById(users, userId)].email != userId
    ensures var o := TransactionRoute.PostTransaction(users, expenses, userId, req, now, model);
      && WithUserIdField(o.expenses, userId) == WithUserIdField(expenses, userId)
      && StreakImpactFor(o.expenses, userId) == StreakImpactFor(expenses, userId)
      && StreakCalendarFor(o.expenses, userId, None) == StreakCalendarFor(expenses, userId, None)
  {
    TransactionRoute.SuccessfulPost(users, expenses, userId, req, now, model);
    var o := TransactionRoute.PostTransaction(users, expenses, userId, req, now, model);
    WithUserIdFieldAppend(expenses, o.response.value.0, userId);
  }
}
