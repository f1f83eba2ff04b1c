/**
  The expense document: its fields, the values the schema accepts and the
  defaults it fills in, and the pre-save hook that re-tags a document with the
  impulse predictor's verdict.
 */
module TransactionModel {
  import opened Common
  import opened ImpulsePrediction

  /** `Date` and `created_at` are milliseconds since the epoch; `userIdField` is
      `User_ID` and `owner` is `user`, the owning user's id. */
  datatype Expense = Expense(
    date: int,
    description: string,
    amount: real,
    category: string,
    isNeed: string,
    timeOfDay: string,
    paymentMode: string,
    impulseTag: bool,
    freeImpulsePurchase: bool,
    userIdField: string,
    sourceApp: Option<string>,
    createdAt: int,
    owner: string)

  predicate ValidIsNeed(s: string) {
    s == "Need" || s == "Want"
  }

  /** What the schema's validators require before a save: every required string is
      non-empty, and the two enumerated fields hold one of their values. */
  predicate ValidExpense(e: Expense) {
    && e.description != ""
    && e.category != ""
    && ValidIsNeed(e.isNeed)
    && KnownTimeOfDay(e.timeOfDay)
    && e.paymentMode != ""
    && e.userIdField != ""
    && e.owner != ""
  }

  /** `new Expense({...})`: the two flags default to false when not given and
      `created_at` to the creation time. */
  function NewExpense(
    date: int, description: string, amount: real, category: string, isNeed: string,
    timeOfDay: string, paymentMode: string, impulseTag: Option<bool>,
    freeImpulsePurchase: Option<bool>, userIdField: string, sourceApp: Option<string>,
    owner: string, now: int): (e: Expense)
    ensures impulseTag.None? ==> !e.impulseTag
    ensures impulseTag.Some? ==> e.impulseTag == impulseTag.value
    ensures freeImpulsePurchase.None? ==> !e.freeImpulsePurchase
    ensures e.createdAt == now
  {
    Expense(date, description, amount, category, isNeed, timeOfDay, paymentMode,
      if impulseTag.Some? then impulseTag.value else false,
      if freeImpulsePurchase.Some? then freeImpulsePurchase.value else false,
      userIdField, sourceApp, now, owner)
  }

  /** The object the hook hands to `predictImpulse`: category, amount, time of day
      and need, but no `Date` and no `Prev_Impulse`. */
  function HookInput(e: Expense): (t: PredictionInput)
    ensures t.dayOfWeek.None? && t.prevImpulse.None?
    ensures t.category == e.category && t.amount == e.amount && t.timeOfDay == e.timeOfDay
  {
    PredictionInput(e.category, e.amount, e.timeOfDay, None, None)
  }

  /** The tag a document carries after the pre-save hook. `verdict` is
      `prediction.isImpulse`, or `None` when the prediction threw. */
  function TagAfterPreSave(e: Expense, isNew: bool, tagModified: bool, verdict: Option<bool>): bool {
    if tagModified && !isNew then e.impulseTag
    else if verdict.Some? then verdict.value
    else e.impulseTag
  }

  /** `prediction.isImpulse` for the hook's input under `model`, or `None` when there
      is no model and the prediction throws. */
  function HookVerdict(model: Option<Model>, e: Expense): (v: Option<bool>)
    ensures v.Some? <==> model.Some?
  {
    if model.Some? then Some(Classify(model.value.predict(ProcessTransaction(HookInput(e)))).isImpulse) else None
  }

  /** An existing document whose tag was edited keeps the edit, whatever the
      predictor would say. */
  lemma ModifiedTagKept(e: Expense, verdict: Option<bool>)
    ensures TagAfterPreSave(e, false, true, verdict) == e.impulseTag
  {
  }

  /** Every other save takes the predictor's verdict when there is one, and keeps
      the current tag (for a new document, the client's) when prediction failed. */
  lemma PredictionOverwrites(e: Expense, isNew: bool, tagModified: bool, verdict: Option<bool>)
    requires isNew || !tagModified
    ensures verdict.Some? ==> TagAfterPreSave(e, isNew, tagModified, verdict) == verdict.value
    ensures verdict.None? ==> TagAfterPreSave(e, isNew, tagModified, verdict) == e.impulseTag
  {
  }

  /** The hook feeds the network a weekday and a zero previous-impulse count, so
      whatever the date of the transaction, its features are those of a
      weekday transaction. */
  lemma HookIgnoresDate(e: Expense, date: int)
    ensures ProcessTransaction(HookInput(e)) == ProcessTransaction(HookInput(e.(date := date)))
    ensures ProcessTransaction(HookInput(e))[2] == 0.0
    ensures ProcessTransaction(HookInput(e))[4] == 0.0
  {
  }

  /** An expense document being saved, with Mongoose's `isNew` flag and whether
      `Impulse_Tag` was modified since it was loaded. */
  class ExpenseDocument {
    var data: Expense
    var isNew: bool
    var tagModified: bool

    constructor (e: Expense)
      ensures data == e && isNew && !tagModified
    {
      data := e;
      isNew := true;
      tagModified := false;
    }

    /** `expenseSchema.pre('save')`. `source` is what a model load would yield if
        the predictor has to load one. */
    method PreSave(predictor: ImpulsePredictor, source: Option<Model>)
      modifies this, predictor
      ensures isNew == old(isNew) && tagModified == old(tagModified)
      ensures old(tagModified) && !old(isNew) ==> data == old(data) && predictor.model == old(predictor.model)
      ensures !(old(tagModified) && !old(isNew)) ==> predictor.model == ModelAfterLoad(old(predictor.model), source)
      ensures data == old(data).(impulseTag := TagAfterPreSave(old(data), old(isNew), old(tagModified), HookVerdict(predictor.model, old(data))))
    {
      if tagModified && !isNew {
        return;
      }
      var prediction := predictor.PredictImpulse(HookInput(data), source);
      if prediction.Some? {
        data := data.(impulseTag := prediction.value.isImpulse);
      }
    }
  }

  /** `Expense.find({ user: owner })`, in collection order. */
  function OwnedBy(expenses: seq<Expense>, owner: string): (r: seq<Expense>)
    ensures |r| <= |expenses|
    ensures forall i :: 0 <= i < |r| ==> r[i].owner == owner
    ensures forall e :: e in r <==> e in expenses && e.owner == owner
  {
    if expenses == [] then []
    else
      var last := expenses[|expenses| - 1];
      OwnedBy(expenses[..|expenses| - 1], owner) + (if last.owner == owner then [last] else [])
  }

  /** `Expense.find({ User_ID: id })`, in collection order. */
  function WithUserIdField(expenses: seq<Expense>, id: string): (r: seq<Expense>)
    ensures |r| <= |expenses|
    ensures forall e :: e in r <==> e in expenses && e.userIdField == id
  {
    if expenses == [] then []
    else
      var last := expenses[|expenses| - 1];
      WithUserIdField(expenses[..|expenses| - 1], id) + (if last.userIdField == id then [last] else [])
  }

  lemma WithUserIdFieldAppend(expenses: seq<Expense>, e: Expense, id: string)
    ensures WithUserIdField(expenses + [e], id) == WithUserIdField(expenses, id) + (if e.userIdField == id then [e] else [])
  {
    assert (expenses + [e])[..|expenses|] == expenses;
  }

  /** `{ $sum: "$Amount" }`: the signed total, 0 for no documents. */
  function SumAmounts(expenses: seq<Expense>): real {
    if expenses == [] then 0.0
    else SumAmounts(expenses[..|expenses| - 1]) + expenses[|expenses| - 1].amount
  }

  /** Storing one more expense adds it to its owner's list and to nobody else's. */
  lemma OwnedByAppend(expenses: seq<Expense>, e: Expense, owner: string)
    ensures OwnedBy(expenses + [e], owner) == OwnedBy(expenses, owner) + (if e.owner == owner then [e] else [])
  {
    assert (expenses + [e])[..|expenses|] == expenses;
  }

  lemma SumAmountsAppend(expenses: seq<Expense>, e: Expense)
    ensures SumAmounts(expenses + [e]) == SumAmounts(expenses) + e.amount
  {
    assert (expenses + [e])[..|expenses|] == expenses;
  }

  /** The `expenses` collection, in insertion order. */
  class ExpenseStore {
    var expenses: seq<Expense>

    constructor ()
      ensures expenses == []
    {
      expenses := [];
    }

    method Insert(e: Expense)
      modifies this
      ensures expenses == old(expenses) + [e]
    {
      expenses := expenses + [e];
    }
  }
}
