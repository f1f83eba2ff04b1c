/**
  The dashboard's financial health score and its breakdown. Four tiered
  components are computed over the balance and the five most recent
  transactions: balance (at most 40), income against expenses, savings
  potential and spending consistency (at most 20 each). The score is their sum
  clamped to [0, 100]. The breakdown shown under the score uses the same tiers,
  but its consistency component does not require three recent transactions.
  Amounts are exact reals. The coefficient-of-variation test
  `sqrt(variance) / avg < t` is written as `variance < t² · avg²`, which is
  equivalent for the positive averages that occur.
 */
module HealthScore {
  import opened Common
  import opened Sorting
  import TransactionModel

  datatype TxType = Income | Expense

  /** A transaction as the dashboard holds it; `date` is `new Date(date).getTime()`. */
  datatype Txn = Txn(amount: real, date: int, txType: TxType, impulseTag: Option<bool>)

  /** The mapping applied to each stored transaction fetched from `GET /api/expenses`:
      the type is read off the sign of the amount, so a zero amount is an expense. */
  function FromStored(e: TransactionModel.Expense): (t: Txn)
    ensures t.txType == Income <==> e.amount > 0.0
    ensures t.amount == e.amount && t.date == e.date && t.impulseTag == Some(e.impulseTag)
  {
    Txn(e.amount, e.date, if e.amount > 0.0 then Income else Expense, Some(e.impulseTag))
  }

  /** `[...transactions].sort(newest first).slice(0, 5)` */
  function Recent(txs: seq<Txn>): (r: seq<Txn>)
    ensures |r| == MinInt(5, |txs|)
    ensures forall i, j :: 0 <= i < j < |r| ==> r[i].date >= r[j].date
  {
    var sorted := SortBy(txs, (t: Txn) => -t.date);
    assert forall i, j :: 0 <= i < j < |sorted| ==> -sorted[i].date <= -sorted[j].date;
    Take(sorted, 5)
  }

  /** The recent transactions are taken from the list, and when the list is longer
      than five, every transaction newer than the oldest one kept is kept. */
  lemma RecentKeepsNewest(txs: seq<Txn>)
    ensures multiset(Recent(txs)) <= multiset(txs)
    ensures |txs| <= 5 ==> multiset(Recent(txs)) == multiset(txs)
    ensures |txs| > 5 ==> forall t :: t in txs && t.date > Recent(txs)[4].date ==> t in Recent(txs)
  {
    var key := (t: Txn) => -t.date;
    SortedPrefixKeepsLowest(txs, key, MinInt(5, |txs|));
    assert Recent(txs) == SortBy(txs, key)[..MinInt(5, |txs|)];
  }

  /** Sum of the positive amounts: `incomes.reduce(...)`. */
  function IncomeTotal(ts: seq<Txn>): (r: real)
    ensures r >= 0.0
  {
    if ts == [] then 0.0
    else
      var last := ts[|ts| - 1].amount;
      IncomeTotal(ts[..|ts| - 1]) + (if last > 0.0 then last else 0.0)
  }

  /** Sum of the negative amounts, a signed total: `expenses.reduce(...)`. */
  function ExpenseTotal(ts: seq<Txn>): (r: real)
    ensures r <= 0.0
  {
    if ts == [] then 0.0
    else
      var last := ts[|ts| - 1].amount;
      ExpenseTotal(ts[..|ts| - 1]) + (if last < 0.0 then last else 0.0)
  }

  /** Sum of every amount. */
  function NetFlow(ts: seq<Txn>): real {
    if ts == [] then 0.0 else NetFlow(ts[..|ts| - 1]) + ts[|ts| - 1].amount
  }

  /** The net flow is the income less the total expense, since zero amounts count
      in neither. */
  lemma {:induction false} NetFlowSplits(ts: seq<Txn>)
    ensures NetFlow(ts) == IncomeTotal(ts) + ExpenseTotal(ts)
  {
    if ts != [] {
      NetFlowSplits(ts[..|ts| - 1]);
    }
  }

  /** `expenses.map(t => Math.abs(t.amount))`, in order. */
  function ExpenseAmounts(ts: seq<Txn>): (r: seq<real>)
    ensures |r| <= |ts|
    ensures forall i :: 0 <= i < |r| ==> r[i] > 0.0
  {
    if ts == [] then []
    else
      var last := ts[|ts| - 1].amount;
      ExpenseAmounts(ts[..|ts| - 1]) + (if last < 0.0 then [-last] else [])
  }

  function Sum(xs: seq<real>): real {
    if xs == [] then 0.0 else Sum(xs[..|xs| - 1]) + xs[|xs| - 1]
  }

  /** Σ (x − m)² over `xs`. */
  function SquaredDeviations(xs: seq<real>, m: real): (r: real)
    ensures r >= 0.0
  {
    if xs == [] then 0.0
    else
      var d := xs[|xs| - 1] - m;
      SquaredDeviations(xs[..|xs| - 1], m) + d * d
  }

  lemma {:induction false} ExpenseAmountsSum(ts: seq<Txn>)
    ensures Sum(ExpenseAmounts(ts)) == -ExpenseTotal(ts)
  {
    if ts != [] {
      var init := ts[..|ts| - 1];
      ExpenseAmountsSum(init);
      var last := ts[|ts| - 1].amount;
      if last < 0.0 {
        var xs := ExpenseAmounts(init) + [-last];
        assert ExpenseAmounts(ts) == xs;
        assert xs[..|xs| - 1] == ExpenseAmounts(init);
      } else {
        assert ExpenseAmounts(ts) == ExpenseAmounts(init);
      }
    }
  }

  lemma {:induction false} PositiveSum(xs: seq<real>)
    requires forall i :: 0 <= i < |xs| ==> xs[i] > 0.0
    ensures xs != [] ==> Sum(xs) > 0.0
    ensures Sum(xs) >= 0.0
  {
    if xs != [] {
      PositiveSum(xs[..|xs| - 1]);
    }
  }

  lemma {:induction false} ConstantHasNoDeviation(xs: seq<real>, m: real)
    requires forall i :: 0 <= i < |xs| ==> xs[i] == m
    ensures SquaredDeviations(xs, m) == 0.0
    ensures Sum(xs) == |xs| as real * m
  {
    if xs != [] {
      ConstantHasNoDeviation(xs[..|xs| - 1], m);
    }
  }

  /** The balance component. Below 500 it is `max(5, floor(balance / 100))`, which
      is always 5. */
  function BalanceScore(balance: real): (s: int)
    ensures s in {5, 10, 20, 30, 40}
    ensures s == 40 <==> balance >= 5000.0
    ensures s == 5 <==> balance < 500.0
    ensures 1000.0 <= balance < 3000.0 <==> s == 20
  {
    if balance >= 5000.0 then 40
    else if balance >= 3000.0 then 30
    else if balance >= 1000.0 then 20
    else if balance >= 500.0 then 10
    else
      var f := (balance / 100.0).Floor;
      if f > 5 then f else 5
  }

  /** The income-to-expense component; `expenseTotal` is the signed expense sum. */
  function TransactionScore(incomeTotal: real, expenseTotal: real): (s: int)
    ensures s in {0, 5, 10, 15, 20}
    ensures expenseTotal == 0.0 ==> s == 20
    ensures expenseTotal < 0.0 ==> (s >= 10 <==> incomeTotal >= -expenseTotal)
  {
    var totalExpense := Abs(expenseTotal);
    if totalExpense == 0.0 then 20
    else
      var ratio := incomeTotal / totalExpense;
      assert ratio >= 1.0 <==> incomeTotal >= totalExpense;
      if ratio >= 1.5 then 20
      else if ratio >= 1.2 then 15
      else if ratio >= 1.0 then 10
      else if ratio >= 0.8 then 5
      else 0
  }

  /** The savings component: a positive net flow is scored by the share of income
      it keeps, a non-positive one by the share of the balance it burns. A zero
      income or balance divides by 1. */
  function SavingsScore(netFlow: real, incomeTotal: real, balance: real): (s: int)
    ensures s in {0, 3, 5, 8, 10, 15, 20}
    ensures netFlow > 0.0 ==> s in {5, 10, 15, 20}
    ensures netFlow <= 0.0 ==> s in {0, 3, 5, 8}
    ensures netFlow == 0.0 ==> s == 8
  {
    if netFlow > 0.0 then
      var savingsRate := netFlow / (if incomeTotal == 0.0 then 1.0 else incomeTotal);
      if savingsRate >= 0.3 then 20
      else if savingsRate >= 0.2 then 15
      else if savingsRate >= 0.1 then 10
      else 5
    else
      var burnRate := Abs(netFlow) / (if balance == 0.0 then 1.0 else balance);
      if burnRate >= 0.5 then 0
      else if burnRate >= 0.3 then 3
      else if burnRate >= 0.1 then 5
      else 8
  }

  /** `cv < t` with `cv = sqrt(variance) / d`, for d > 0 and t > 0. */
  predicate CvBelow(variance: real, d: real, t: real) {
    variance < t * t * d * d
  }

  /** Comparing squares decides `sd / d < t` for a non-negative deviation and
      positive mean and threshold, so the test needs no square root. */
  lemma CvBelowMeansRatio(sd: real, d: real, t: real)
    requires sd >= 0.0 && d > 0.0 && t > 0.0
    ensures CvBelow(sd * sd, d, t) <==> sd / d < t
  {
    var td := t * d;
    assert td > 0.0;
    assert sd / d * d == sd;
    assert sd / d < t <==> sd < td;
    assert t * t * d * d == td * td;
    if sd < td {
      assert sd * sd <= sd * td;
      assert sd * td < td * td;
      assert CvBelow(sd * sd, d, t);
    } else {
      assert td * td <= td * sd;
      assert td * sd <= sd * sd;
      assert !CvBelow(sd * sd, d, t);
    }
  }

  /** The consistency tiers for at least two expense amounts. */
  function ConsistencyTier(xs: seq<real>): (s: int)
    requires |xs| >= 2
    ensures s in {0, 5, 10, 15, 20}
  {
    var n := |xs| as real;
    var avg := Sum(xs) / n;
    var variance := SquaredDeviations(xs, avg) / n;
    var d := if avg == 0.0 then 1.0 else avg;
    if CvBelow(variance, d, 0.2) then 20
    else if CvBelow(variance, d, 0.4) then 15
    else if CvBelow(variance, d, 0.6) then 10
    else if CvBelow(variance, d, 0.8) then 5
    else 0
  }

  /** Identical expense amounts have no variation and get the top tier. */
  lemma IdenticalExpensesTopTier(xs: seq<real>, m: real)
    requires |xs| >= 2 && m > 0.0
    requires forall i :: 0 <= i < |xs| ==> xs[i] == m
    ensures ConsistencyTier(xs) == 20
  {
    ConstantHasNoDeviation(xs, m);
    var n := |xs| as real;
    assert Sum(xs) / n == m;
    assert SquaredDeviations(xs, m) / n == 0.0;
    assert 0.2 * 0.2 * m * m > 0.0;
  }

  /** The average of the expense amounts is positive, so the `|| 1` fallback for
      the average never applies. */
  lemma ExpenseAverageIsPositive(ts: seq<Txn>)
    requires |ExpenseAmounts(ts)| >= 2
    ensures Sum(ExpenseAmounts(ts)) / |ExpenseAmounts(ts)| as real > 0.0
  {
    PositiveSum(ExpenseAmounts(ts));
  }

  datatype Breakdown = Breakdown(balanceScore: int, transactionScore: int, savingsScore: int, consistencyScore: int)

  function Total(b: Breakdown): int {
    b.balanceScore + b.transactionScore + b.savingsScore + b.consistencyScore
  }

  /** The components over the recent transactions, with the consistency rule passed
      in: `needThree` requires three recent transactions for the tiers to apply. */
  function Components(balance: real, txs: seq<Txn>, needThree: bool): (b: Breakdown)
    ensures b.balanceScore == BalanceScore(balance)
    ensures 0 <= b.transactionScore <= 20 && 0 <= b.savingsScore <= 20 && 0 <= b.consistencyScore <= 20
    ensures 5 <= Total(b) <= 100
  {
    var recent := Recent(txs);
    var income := IncomeTotal(recent);
    var expense := ExpenseTotal(recent);
    var amounts := ExpenseAmounts(recent);
    var consistency :=
      if (!needThree || |recent| >= 3) && |amounts| >= 2 then ConsistencyTier(amounts) else 10;
    Breakdown(BalanceScore(balance), TransactionScore(income, expense),
      SavingsScore(NetFlow(recent), income, balance), consistency)
  }

  /** `calculateFinanceHealthScore`, clamped to [0, 100]. */
  function Score(balance: real, txs: seq<Txn>): (s: int)
    ensures 0 <= s <= 100
  {
    var total := Total(Components(balance, txs, true));
    if total < 0 then 0 else if total > 100 then 100 else total
  }

  /** `getScoreBreakdown`. */
  function ScoreBreakdown(balance: real, txs: seq<Txn>): (b: Breakdown)
    ensures b.balanceScore <= 40 && b.transactionScore <= 20 && b.savingsScore <= 20 && b.consistencyScore <= 20
  {
    Components(balance, txs, false)
  }

  /** The unclamped sum is at least 5 and at most 100, so the clamp never changes it;
      the score equals the breakdown's total whenever the two consistency rules
      agree. */
  lemma ClampNeverApplies(balance: real, txs: seq<Txn>)
    ensures Score(balance, txs) == Total(Components(balance, txs, true))
    ensures 5 <= Score(balance, txs)
    ensures |Recent(txs)| >= 3 || |ExpenseAmounts(Recent(txs))| < 2 ==>
      Score(balance, txs) == Total(ScoreBreakdown(balance, txs))
  {
  }

  /** With no expense among the recent transactions the income component is full. */
  lemma NoRecentExpenseFullTransactionScore(balance: real, txs: seq<Txn>)
    requires forall i :: 0 <= i < |Recent(txs)| ==> Recent(txs)[i].amount >= 0.0
    ensures ScoreBreakdown(balance, txs).transactionScore == 20
    ensures Components(balance, txs, true).transactionScore == 20
  {
    NoNegativeNoExpense(Recent(txs));
  }

  lemma {:induction false} NoNegativeNoExpense(ts: seq<Txn>)
    requires forall i :: 0 <= i < |ts| ==> ts[i].amount >= 0.0
    ensures ExpenseTotal(ts) == 0.0
    ensures ExpenseAmounts(ts) == []
  {
    if ts != [] {
      NoNegativeNoExpense(ts[..|ts| - 1]);
    }
  }

  /** Two equal expenses and nothing else: the breakdown rates them perfectly
      consistent, while the score, having fewer than three transactions, uses the
      default 10, so the two totals differ. */
  lemma BreakdownCanDifferFromScore()
    ensures var txs := [Txn(-100.0, 2, Expense, Some(false)), Txn(-100.0, 1, Expense, Some(false))];
      && ScoreBreakdown(0.0, txs).consistencyScore == 20
      && Components(0.0, txs, true).consistencyScore == 10
      && Score(0.0, txs) == 15
      && Total(ScoreBreakdown(0.0, txs)) == 25
  {
    var txs := [Txn(-100.0, 2, Expense, Some(false)), Txn(-100.0, 1, Expense, Some(false))];
    var r := Recent(txs);
    assert r == txs;
    assert r[..1] == [txs[0]];
    var amounts := ExpenseAmounts(r);
    assert amounts == [100.0, 100.0];
    IdenticalExpensesTopTier(amounts, 100.0);
    assert NetFlow(r) == -200.0;
    assert IncomeTotal(r) == 0.0;
    assert ExpenseTotal(r) == -200.0;
  }

  datatype HealthStatus = Excellent | Good | Fair | Poor

  /** `getHealthStatus` */
  function HealthStatusOf(score: int): (h: HealthStatus)
    ensures h == Excellent <==> score >= 80
    ensures h == Good <==> 60 <= score < 80
    ensures h == Fair <==> 40 <= score < 60
    ensures h == Poor <==> score < 40
  {
    if score >= 80 then Excellent
    else if score >= 60 then Good
    else if score >= 40 then Fair
    else Poor
  }

  /** `getHealthColor` */
  function HealthColor(score: int): (c: string)
    ensures c == "bg-green-500" <==> HealthStatusOf(score) == Excellent
    ensures c == "bg-blue-500" <==> HealthStatusOf(score) == Good
    ensures c == "bg-yellow-500" <==> HealthStatusOf(score) == Fair
    ensures c == "bg-red-500" <==> HealthStatusOf(score) == Poor
  {
    if score >= 80 then "bg-green-500"
    else if score >= 60 then "bg-blue-500"
    else if score >= 40 then "bg-yellow-500"
    else "bg-red-500"
  }

  /** The four long messages of `getDetailedHealthMessage`, best first. */
  datatype DetailedMessage = ExcellentShape | RoomForImprovement | NeedsAttention | ImmediateAttention

  function DetailedHealthMessage(score: int): (m: DetailedMessage)
    ensures m == ExcellentShape <==> HealthStatusOf(score) == Excellent
    ensures m == RoomForImprovement <==> HealthStatusOf(score) == Good
    ensures m == NeedsAttention <==> HealthStatusOf(score) == Fair
    ensures m == ImmediateAttention <==> HealthStatusOf(score) == Poor
  {
    if score >= 80 then ExcellentShape
    else if score >= 60 then RoomForImprovement
    else if score >= 40 then NeedsAttention
    else ImmediateAttention
  }

  datatype Component = BalanceComponent | TransactionComponent | SavingsComponent | ConsistencyComponent

  /** `getComponentMessage` */
  function ComponentMessage(c: Component, score: int): (m: string)
    ensures c == BalanceComponent ==>
      (m == "Excellent account balance" <==> score >= 30) && (m == "Low account balance" <==> score < 10)
    ensures c == TransactionComponent ==>
      (m == "Healthy income-to-expense ratio" <==> score >= 15) && (m == "Income is lower than expenses" <==> score < 10)
    ensures c == SavingsComponent ==>
      (m == "Strong saving habits" <==> score >= 15) && (m == "Limited savings" <==> score < 10)
    ensures c == ConsistencyComponent ==>
      (m == "Very consistent spending patterns" <==> score >= 15) && (m == "Inconsistent spending patterns" <==> score < 10)
  {
    match c
    case BalanceComponent =>
      if score >= 30 then "Excellent account balance"
      else if score >= 20 then "Good account balance"
      else if score >= 10 then "Moderate account balance"
      else "Low account balance"
    case TransactionComponent =>
      if score >= 15 then "Healthy income-to-expense ratio"
      else if score >= 10 then "Balanced income-to-expense ratio"
      else "Income is lower than expenses"
    case SavingsComponent =>
      if score >= 15 then "Strong saving habits"
      else if score >= 10 then "Moderate saving habits"
      else "Limited savings"
    case ConsistencyComponent =>
      if score >= 15 then "Very consistent spending patterns"
      else if score >= 10 then "Moderately consistent spending"
      else "Inconsistent spending patterns"
  }

  /** Which of the four improvement tips are shown. */
  datatype Tips = Tips(balanceTip: bool, transactionTip: bool, savingsTip: bool, consistencyTip: bool)

  function TipsFor(b: Breakdown): Tips {
    Tips(b.balanceScore < 30, b.transactionScore < 15, b.savingsScore < 10, b.consistencyScore < 15)
  }

  /** A tip is shown exactly when its component's message is not the top one, except
      for savings, whose tip needs the bottom message. */
  lemma TipsFollowMessages(b: Breakdown)
    ensures TipsFor(b).balanceTip <==> ComponentMessage(BalanceComponent, b.balanceScore) != "Excellent account balance"
    ensures TipsFor(b).transactionTip <==> ComponentMessage(TransactionComponent, b.transactionScore) != "Healthy income-to-expense ratio"
    ensures TipsFor(b).savingsTip <==> ComponentMessage(SavingsComponent, b.savingsScore) == "Limited savings"
    ensures TipsFor(b).consistencyTip <==> ComponentMessage(ConsistencyComponent, b.consistencyScore) != "Very consistent spending patterns"
  {
  }

  /** The "Recent Transactions" table: the first five of the reversed list. */
  function RecentRows(txs: seq<Txn>): (r: seq<Txn>)
    ensures |r| == MinInt(5, |txs|)
    ensures forall i :: 0 <= i < |r| ==> r[i] == txs[|txs| - 1 - i]
  {
    Take(Reverse(txs), 5)
  }

  /** The list arrives newest first, so its reversal puts the oldest first: when it
      is sorted by date descending, no row is newer than a transaction left out of
      the table. */
  lemma RecentRowsAreOldest(txs: seq<Txn>)
    requires forall i, j :: 0 <= i < j < |txs| ==> txs[i].date >= txs[j].date
    ensures forall i, k :: 0 <= i < |RecentRows(txs)| && 0 <= k < |txs| - 5 ==> RecentRows(txs)[i].date <= txs[k].date
  {
  }

  /** The "impulsive" badge. */
  predicate ShowsImpulseBadge(t: Txn) {
    t.txType == Expense && t.impulseTag == Some(true)
  }

  /** A fetched transaction shows the badge exactly when its amount is not positive
      and it is tagged. */
  lemma BadgeOnFetched(e: TransactionModel.Expense)
    ensures ShowsImpulseBadge(FromStored(e)) <==> e.amount <= 0.0 && e.impulseTag
  {
  }
}
