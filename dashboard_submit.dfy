/**
  Submitting the dashboard's transaction form. A want needs the user's
  confirmation. The amount is signed by the form's type: an expense is sent as
  −|A| and an income as +|A|. An expense the current balance cannot cover is
  refused before anything is sent. Only an expense carries the rule-based
  impulse verdict. The server's reply is a parameter: the new balance on
  success, `None` on an error status or a network failure.
 */
module DashboardSubmit {
  import opened Common
  import opened ImpulseClassifier
  import opened HealthScore

  /** The form's fields; `Amount` is already a number. */
  datatype TransactionForm = TransactionForm(
    description: string,
    amount: real,
    date: string,
    category: string,
    isNeed: string,
    timeOfDay: string,
    paymentMode: string,
    txType: TxType)

  /** The JSON body posted to `/api/expenses`. */
  datatype Payload = Payload(form: TransactionForm, userIdField: string, sourceApp: string, impulseTag: Option<bool>)

  datatype Submission = Cancelled | InsufficientBalance | Send(payload: Payload)

  /** The form after a successful submission. */
  function ResetForm(today: string): TransactionForm {
    TransactionForm("", 0.0, today, "", "Need", "Morning", "UPI", Expense)
  }

  /** `isExpense ? -Math.abs(A) : Math.abs(A)` */
  function SignedAmount(form: TransactionForm): (a: real)
    ensures Abs(a) == Abs(form.amount)
    ensures form.txType == Expense ==> a <= 0.0
    ensures form.txType == Income ==> a >= 0.0
  {
    if form.txType == Expense then -Abs(form.amount) else Abs(form.amount)
  }

  /** What a submission does before the request: cancel, refuse, or send. */
  function PrepareSubmission(form: TransactionForm, balance: real, email: string,
                             confirmed: bool, weekend: bool): (o: Submission)
    ensures o == Cancelled <==> form.isNeed == "Want" && !confirmed
    ensures o == InsufficientBalance <==>
      && !(form.isNeed == "Want" && !confirmed)
      && form.txType == Expense && balance - Abs(form.amount) < 0.0
    ensures o.Send? ==>
      && o.payload.form == form.(amount := SignedAmount(form))
      && o.payload.userIdField == (if email == "" then "user@example.com" else email)
      && o.payload.sourceApp == "FinanceApp"
      && (o.payload.impulseTag.Some? <==> form.txType == Expense)
  {
    if form.isNeed == "Want" && !confirmed then Cancelled
    else
      var isExpense := form.txType == Expense;
      var adjusted := SignedAmount(form);
      if isExpense && balance + adjusted < 0.0 then InsufficientBalance
      else
        var sent := form.(amount := adjusted);
        var userIdField := if email == "" then "user@example.com" else email;
        var tag := if isExpense
          then Some(PredictImpulseSimple(SimpleInput(form.category, form.timeOfDay, adjusted, form.isNeed, weekend)))
          else None;
        Send(Payload(sent, userIdField, "FinanceApp", tag))
  }

  /** A sent expense never takes the balance the dashboard knows below zero, and its
      tag is the classifier's verdict on the signed amount, which scores like the
      amount typed. */
  lemma SentExpenseIsCovered(form: TransactionForm, balance: real, email: string, confirmed: bool, weekend: bool)
    requires form.txType == Expense
    requires PrepareSubmission(form, balance, email, confirmed, weekend).Send?
    ensures var p := PrepareSubmission(form, balance, email, confirmed, weekend).payload;
      && balance + p.form.amount >= 0.0
      && p.form.amount == -Abs(form.amount)
      && p.impulseTag == Some(PredictImpulseSimple(SimpleInput(form.category, form.timeOfDay, form.amount, form.isNeed, weekend)))
  {
  }

  /** An income is never refused, whatever the balance, once it is confirmed or a
      need. */
  lemma IncomeIsNeverRefused(form: TransactionForm, balance: real, email: string, confirmed: bool, weekend: bool)
    requires form.txType == Income
    requires form.isNeed != "Want" || confirmed
    ensures PrepareSubmission(form, balance, email, confirmed, weekend).Send?
    ensures PrepareSubmission(form, balance, email, confirmed, weekend).payload.form.amount == Abs(form.amount)
  {
  }

  /** The dashboard's state that `handleSubmitTransaction` updates. */
  class DashboardScreen {
    var balance: real
    var form: TransactionForm
    var showForm: bool
    var submitting: bool

    constructor ()
      ensures balance == 0.0 && !showForm && !submitting
      ensures form == TransactionForm("", 0.0, "", "", "Need", "Morning", "", Expense)
    {
      balance := 0.0;
      form := TransactionForm("", 0.0, "", "", "Need", "Morning", "", Expense);
      showForm := false;
      submitting := false;
    }

    /** `handleSubmitTransaction`. `confirmed` is the answer to the want prompt,
        `weekend` the day of the form's date, `reply` the server's new balance and
        `today` the date the reset form starts with. Returns the body sent, if any. */
    method SubmitTransaction(email: string, confirmed: bool, weekend: bool, reply: Option<real>, today: string)
      returns (sent: Option<Payload>)
      modifies this
      ensures var o := PrepareSubmission(old(form), old(balance), email, confirmed, weekend);
        && sent == (if o.Send? then Some(o.payload) else None)
        && (o.Send? && reply.Some? ==> balance == reply.value && form == ResetForm(today) && !showForm)
        && (!(o.Send? && reply.Some?) ==> balance == old(balance) && form == old(form) && showForm == old(showForm))
        && submitting == (o.Cancelled? && old(submitting))
    {
      if form.isNeed == "Want" && !confirmed {
        return None;
      }
      submitting := true;
      var isExpense := form.txType == Expense;
      var adjusted := SignedAmount(form);
      if isExpense && balance + adjusted < 0.0 {
        submitting := false;
        return None;
      }
      var body := form.(amount := adjusted);
      var userIdField := if email == "" then "user@example.com" else email;
      var tag: Option<bool> := None;
      if isExpense {
        var isImpulse := PredictImpulseSimple(SimpleInput(form.category, form.timeOfDay, adjusted, form.isNeed, weekend));
        tag := Some(isImpulse);
      }
      var payload := Payload(body, userIdField, "FinanceApp", tag);
      sent := Some(payload);
      if reply.Some? {
        balance := reply.value;
        form := ResetForm(today);
        showForm := false;
      }
      submitting := false;
    }
  }
}
