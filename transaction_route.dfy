/**
  The transaction routes: replace the balance, record a transaction (moving the
  balance by its signed amount first), and list the caller's transactions newest
  first. `userId` is the id the authentication middleware resolved.
 */
module TransactionRoute {
  import opened Common
  import opened Sorting
  import opened ImpulsePrediction
  import opened UserModel
  import opened TransactionModel

  datatype RouteError =
    | NotANumber
    | MissingFields
    | UserNotFound
    | InvalidType
    | ServerError

  function StatusCode(e: RouteError): (code: int)
    ensures code == 404 <==> e == UserNotFound
    ensures code == 500 <==> e == ServerError
    ensures code in {400, 404, 500}
  {
    match e
    case NotANumber => 400
    case MissingFields => 400
    case UserNotFound => 404
    case InvalidType => 400
    case ServerError => 500
  }

  /** The body of `POST /`; `None` is a key the client did not send. */
  datatype TransactionRequest = TransactionRequest(
    description: Option<string>,
    amount: Option<real>,
    date: Option<int>,
    category: Option<string>,
    isNeed: Option<string>,
    timeOfDay: Option<string>,
    paymentMode: Option<string>,
    impulseTag: Option<bool>,
    sourceApp: Option<string>,
    kind: Option<string>)

  predicate FalsyString(s: Option<string>) {
    s.None? || s.value == ""
  }

  /** `!Amount || !Category || !Date || !type`: a zero amount is falsy too. */
  predicate MissingRequired(req: TransactionRequest) {
    req.amount.None? || req.amount.value == 0.0 || FalsyString(req.category) || req.date.None? || FalsyString(req.kind)
  }

  /** An absent string field reaches the schema as nothing, which its `required`
      validator rejects like the empty string. */
  function OrEmpty(s: Option<string>): string {
    if s.Some? then s.value else ""
  }

  /** The document `POST /` builds: the request's fields, `User_ID` set to the
      user's email and `user` to the user's id. `type` is not a schema path and is
      dropped. */
  function ExpenseFor(req: TransactionRequest, user: User, now: int): (e: Expense)
    requires !MissingRequired(req)
    ensures e.userIdField == user.email && e.owner == user.id
    ensures e.amount == req.amount.value && e.date == req.date.value && e.category == req.category.value
  {
    NewExpense(req.date.value, OrEmpty(req.description), req.amount.value, req.category.value,
      OrEmpty(req.isNeed), OrEmpty(req.timeOfDay), OrEmpty(req.paymentMode), req.impulseTag,
      None, user.email, req.sourceApp, user.id, now)
  }

  /** Both collections after a request, and the response. */
  datatype Outcome<T> = Outcome(users: seq<User>, expenses: seq<Expense>, response: Result<T, RouteError>)

  /** `PATCH /balance`: a number replaces the balance; anything else is refused
      before the user is looked up. */
  function PatchBalance(users: seq<User>, userId: string, newBalance: JsonValue): (r: (seq<User>, Result<real, RouteError>))
    ensures !IsNumber(newBalance) ==> r == (users, Err(NotANumber))
    ensures IsNumber(newBalance) && FindById(users, userId) == -1 ==> r == (users, Err(UserNotFound))
    ensures IsNumber(newBalance) && FindById(users, userId) >= 0 ==> r.1.Ok?
    ensures r.1.Ok? ==> var k := FindById(users, userId);
      && r.0 == users[k := users[k].(balance := newBalance.n)]
      && r.1.value == newBalance.n
  {
    if !IsNumber(newBalance) then (users, Err(NotANumber))
    else
      var k := FindById(users, userId);
      if k == -1 then (users, Err(UserNotFound))
      else (users[k := users[k].(balance := newBalance.n)], Ok(newBalance.n))
  }

  /** `POST /`. `model` is the predictor's model when the pre-save hook runs. The
      user's balance is saved before the expense is validated, so an invalid
      expense leaves the balance moved and no transaction stored. */
  function PostTransaction(users: seq<User>, expenses: seq<Expense>, userId: string,
                           req: TransactionRequest, now: int, model: Option<Model>): (o: Outcome<(Expense, real)>)
    ensures o.response.Ok? <==>
      && !MissingRequired(req) && FindById(users, userId) >= 0
      && (req.kind.value == "income" || req.kind.value == "expense")
      && var k := FindById(users, userId);
         ValidExpense(ExpenseFor(req, users[k].(balance := users[k].balance + req.amount.value), now))
  {
    if MissingRequired(req) then Outcome(users, expenses, Err(MissingFields))
    else
      var k := FindById(users, userId);
      if k == -1 then Outcome(users, expenses, Err(UserNotFound))
      else if req.kind.value != "income" && req.kind.value != "expense" then Outcome(users, expenses, Err(InvalidType))
      else
        var user := users[k].(balance := users[k].balance + req.amount.value);
        var users' := users[k := user];
        var e := ExpenseFor(req, user, now);
        if !ValidExpense(e) then Outcome(users', expenses, Err(ServerError))
        else
          var saved := e.(impulseTag := TagAfterPreSave(e, true, false, HookVerdict(model, e)));
          Outcome(users', expenses + [saved], Ok((saved, user.balance)))
  }

  /** `GET /`: the caller's transactions, newest first. */
  function ListTransactions(expenses: seq<Expense>, userId: string): (r: seq<Expense>)
    ensures |r| == |OwnedBy(expenses, userId)|
    ensures forall i, j :: 0 <= i < j < |r| ==> r[i].date >= r[j].date
  {
    var sorted := SortBy(OwnedBy(expenses, userId), (e: Expense) => -e.date);
    assert forall i, j :: 0 <= i < j < |sorted| ==> -sorted[i].date <= -sorted[j].date;
    sorted
  }

  /** The request-level refusals change nothing: a falsy required field, an
      unknown user and an unknown `type` each leave both collections as they were. */
  lemma RefusalsChangeNothing(users: seq<User>, expenses: seq<Expense>, userId: string,
                              req: TransactionRequest, now: int, model: Option<Model>)
    ensures var o := PostTransaction(users, expenses, userId, req, now, model);
      && (MissingRequired(req) ==> o.response == Err(MissingFields))
      && (!MissingRequired(req) && FindById(users, userId) == -1 ==> o.response == Err(UserNotFound))
      && (!MissingRequired(req) && FindById(users, userId) >= 0 && req.kind.value !in {"income", "expense"} ==> o.response == Err(InvalidType))
      && (o.response.Err? && o.response.error != ServerError ==> o.users == users && o.expenses == expenses)
  {
  }

  /** Income and expense alike add the amount as sent, so the sign is the
      client's; the response's `newBalance` is the stored balance, and exactly one
      transaction, owned by the caller and tagged by the hook, is stored. */
  lemma SuccessfulPost(users: seq<User>, expenses: seq<Expense>, userId: string,
                       req: TransactionRequest, now: int, model: Option<Model>)
    requires PostTransaction(users, expenses, userId, req, now, model).response.Ok?
    ensures var o := PostTransaction(users, expenses, userId, req, now, model);
      var k := FindById(users, userId);
      var saved := o.response.value.0;
      && k >= 0 && (req.kind == Some("income") || req.kind == Some("expense"))
      && |o.users| == |users|
      && o.users[k].balance == users[k].balance + req.amount.value
      && o.users[k] == users[k].(balance := o.users[k].balance)
      && (forall i :: 0 <= i < |users| && i != k ==> o.users[i] == users[i])
      && o.response.value.1 == o.users[k].balance
      && o.expenses == expenses + [saved]
      && saved.owner == userId && saved.userIdField == users[k].email
      && saved.amount == req.amount.value && saved.date == req.date.value
      && ValidExpense(saved)
      && (model.Some? ==> saved.impulseTag == Classify(model.value.predict(ProcessTransaction(HookInput(saved)))).isImpulse)
      && (model.None? ==> saved.impulseTag == (req.impulseTag == Some(true)))
  {
  }

  /** An expense that fails validation is reported as a server error after the
      balance was already saved. */
  lemma InvalidExpenseStillMovesBalance(users: seq<User>, expenses: seq<Expense>, userId: string,
                                        req: TransactionRequest, now: int, model: Option<Model>)
    requires !MissingRequired(req) && (req.kind == Some("income") || req.kind == Some("expense"))
    requires FindById(users, userId) >= 0
    requires req.timeOfDay == Some("Midnight")
    ensures var o := PostTransaction(users, expenses, userId, req, now, model);
      && o.response == Err(ServerError)
      && o.expenses == expenses
      && o.users[FindById(users, userId)].balance == users[FindById(users, userId)].balance + req.amount.value
  {
  }

  /** `GET /` returns exactly the caller's transactions: each of them once, and no one
      else's, ordered by `Date` descending. */
  lemma ListTransactionsSpec(expenses: seq<Expense>, userId: string)
    ensures var r := ListTransactions(expenses, userId);
      && multiset(r) == multiset(OwnedBy(expenses, userId))
      && (forall i :: 0 <= i < |r| ==> r[i].owner == userId)
      && (forall i, j :: 0 <= i < j < |r| ==> r[i].date >= r[j].date)
  {
    var owned := OwnedBy(expenses, userId);
    var r := ListTransactions(expenses, userId);
    SortByPermutes(owned, (e: Expense) => -e.date);
    forall i | 0 <= i < |r| ensures r[i].owner == userId {
      assert r[i] in multiset(r);
      assert r[i] in owned;
    }
    assert SortedBy(r, (e: Expense) => -e.date);
  }

  /** `PATCH /balance` */
  method PatchBalanceRoute(users: UserStore, userId: string, newBalance: JsonValue) returns (r: Result<real, RouteError>)
    modifies users
    ensures (users.users, r) == PatchBalance(old(users.users), userId, newBalance)
  {
    if !IsNumber(newBalance) {
      return Err(NotANumber);
    }
    var k := FindById(users.users, userId);
    if k == -1 {
      return Err(UserNotFound);
    }
    users.SetBalance(k, newBalance.n);
    r := Ok(users.users[k].balance);
  }

  /** `POST /`: moves the balance, saves the user, then validates, re-tags and
      stores the expense. */
  method PostTransactionRoute(users: UserStore, store: ExpenseStore, predictor: ImpulsePredictor,
                              userId: string, req: TransactionRequest, now: int, source: Option<Model>)
    returns (r: Result<(Expense, real), RouteError>)
    modifies users, store, predictor
    ensures predictor.model == old(predictor.model) || predictor.model == ModelAfterLoad(old(predictor.model), source)
    ensures Outcome(users.users, store.expenses, r)
      == PostTransaction(old(users.users), old(store.expenses), userId, req, now, ModelAfterLoad(old(predictor.model), source))
  {
    if MissingRequired(req) {
      return Err(MissingFields);
    }
    var k := FindById(users.users, userId);
    if k == -1 {
      return Err(UserNotFound);
    }
    if req.kind.value != "income" && req.kind.value != "expense" {
      return Err(InvalidType);
    }
    users.SetBalance(k, users.users[k].balance + req.amount.value);
    var user := users.users[k];
    var e := ExpenseFor(req, user, now);
    if !ValidExpense(e) {
      return Err(ServerError);
    }
    var doc := new ExpenseDocument(e);
    doc.PreSave(predictor, source);
    store.Insert(doc.data);
    r := Ok((doc.data, user.balance));
  }
}
