/**
  The budget summary: the user's stored balance set against the signed sum of the
  user's transactions. Income is a constant 0.
 */
module BudgetSummary {
  import opened Common
  import opened ImpulsePrediction
  import opened UserModel
  import opened TransactionModel
  import TransactionRoute

  datatype Summary = Summary(income: real, expenses: real, savings: real, totalBalance: real)

  /** `GET /`: 404 for an unknown user, otherwise the four figures. */
  function BudgetSummaryFor(users: seq<User>, expenses: seq<Expense>, userId: string): (r: Option<Summary>)
    ensures r.None? <==> FindById(users, userId) == -1
    ensures r.Some? ==> var user := users[FindById(users, userId)];
      && r.value.income == 0.0
      && r.value.expenses == SumAmounts(OwnedBy(expenses, userId))
      && r.value.totalBalance == user.balance
      && r.value.savings == r.value.totalBalance - r.value.expenses
  {
    var k := FindById(users, userId);
    if k == -1 then None
    else
      var user := users[k];
      var total := SumAmounts(OwnedBy(expenses, user.id));
      Some(Summary(0.0, total, user.balance - total, user.balance))
  }

  /** A user with no transactions has expenses 0 and savings equal to the balance. */
  lemma NoTransactionsNoExpenses(users: seq<User>, userId: string)
    requires FindById(users, userId) >= 0
    ensures BudgetSummaryFor(users, [], userId).value.expenses == 0.0
    ensures BudgetSummaryFor(users, [], userId).value.savings == users[FindById(users, userId)].balance
  {
  }

  /** A recorded transaction moves the balance and the expense total by the same
      signed amount, so it never changes the savings figure. */
  lemma PostKeepsSavings(users: seq<User>, expenses: seq<Expense>, userId: string,
                         req: TransactionRoute.TransactionRequest, now: int, model: Option<Model>)
    requires TransactionRoute.PostTransaction(users, expenses, userId, req, now, model).response.Ok?
    ensures var o := TransactionRoute.PostTransaction(users, expenses, userId, req, now, model);
      && BudgetSummaryFor(o.users, o.expenses, userId).Some?
      && BudgetSummaryFor(o.users, o.expenses, userId).value.savings == BudgetSummaryFor(users, expenses, userId).value.savings
      && BudgetSummaryFor(o.users, o.expenses, userId).value.totalBalance
           == BudgetSummaryFor(users, expenses, userId).value.totalBalance + req.amount.value
  {
    var o := TransactionRoute.PostTransaction(users, expenses, userId, req, now, model);
    TransactionRoute.SuccessfulPost(users, expenses, userId, req, now, model);
    var k := FindById(users, userId);
    var saved := o.response.value.0;
    assert FindById(o.users, userId) == k;
    OwnedByAppend(expenses, saved, userId);
    SumAmountsAppend(OwnedBy(expenses, userId), saved);
  }
}
