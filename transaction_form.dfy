/**
 * components/transaction-form-card.tsx: the submit handler's state machine.
 * `onSubmit` is an async function; the model splits it at its `await fetch`
 * into `Submit` (everything up to sending the request) and `Settle` (what
 * runs when the reply arrives), so that the state the page shows while the
 * request is in flight is observable.
 */
module TransactionForm {
  import opened Wrappers
  import opened Validations
  import TransactionsRoute
  import Domain

  const FailedToCreateMessage := "Failed to create transaction"
  const AddLabel := "Add Transaction"
  const AddingLabel := "Adding..."

  /** The six controls the form renders. */
  datatype Control = IncomeRadio | ExpenseRadio | AmountInput | DescriptionInput | DateInput | SubmitButton

  /** The calls the handler makes to its collaborators, in order. */
  datatype Call =
    | Post(body: RawTransaction, inputsDisabled: bool)   // `fetch` of POST /api/transactions
    | Reset                                                // the form's `reset()`
    | TransactionAdded                                     // the parent's `onTransactionAdded()`

  /** The body of a reply that is not ok, as `response.json()` reads it. */
  datatype ErrorBody = ErrorJson(error: Option<string>) | Unreadable(message: string)

  /** What the POST request came back with. */
  datatype Reply = NetworkFailure(message: string) | Responded(ok: bool, errorBody: ErrorBody)

  /** How the request ended for the handler. */
  datatype Outcome = Succeeded | Failed(message: string)

  /**
   * The form's initial values; `today` is the clock's date in "YYYY-MM-DD" form.
   * An untouched form fails local validation: its amount and description are
   * empty and no type is chosen.
   */
  function DefaultValues(today: string): (v: RawTransaction)
    ensures v.date == Str(today)
    ensures CreateTransactionSchema(Object(v)).Err?
    ensures FailingFields(v) >= {AmountField, DescriptionField, TypeField}
  {
    RawTransaction(Str(""), Str(""), Missing, Str(today))
  }

  /**
   * The message of the Error a reply that is not ok throws:
   * `errorData.error || "Failed to create transaction"`; an unreadable body
   * throws the JSON parser's own error instead.
   */
  function ReplyErrorMessage(body: ErrorBody): (m: string)
    ensures body.ErrorJson? ==> m != ""
    ensures body.ErrorJson? && body.error.Some? && body.error.value != "" ==> m == body.error.value
    ensures body.ErrorJson? && (body.error.None? || body.error.value == "") ==> m == FailedToCreateMessage
    ensures body.Unreadable? ==> m == body.message
  {
    match body
    case ErrorJson(Some(e)) => if e != "" then e else FailedToCreateMessage
    case ErrorJson(None) => FailedToCreateMessage
    case Unreadable(message) => message
  }

  /** The outcome of a reply: only an ok response succeeds. */
  function OutcomeOf(reply: Reply): (o: Outcome)
    ensures o.Succeeded? <==> reply.Responded? && reply.ok
    ensures reply.NetworkFailure? ==> o == Failed(reply.message)
    ensures reply.Responded? && !reply.ok ==> o == Failed(ReplyErrorMessage(reply.errorBody))
  {
    match reply
    case NetworkFailure(message) => Failed(message)
    case Responded(ok, errorBody) => if ok then Succeeded else Failed(ReplyErrorMessage(errorBody))
  }

  /**
   * The message of the ZodError a failed local parse throws. Zod renders the
   * issue list as JSON; this model lists the issue messages one per line.
   */
  function IssuesMessage(issues: seq<Issue>): (m: string)
    ensures m == "" <==> issues == []
    ensures issues != [] ==> |m| > |issues[0].message| && m[..|issues[0].message|] == issues[0].message
  {
    if issues == [] then "" else issues[0].message + "\n" + IssuesMessage(issues[1..])
  }

  /** The reply the browser sees for a response of the transactions route. */
  function ReplyOf(response: TransactionsRoute.Response): (reply: Reply)
    ensures reply.Responded? && (reply.ok <==> 200 <= response.status < 300)
  {
    var ok := 200 <= response.status < 300;
    match response.body
    case Error(e) => Responded(ok, ErrorJson(Some(e)))
    case InvalidData(e, _) => Responded(ok, ErrorJson(Some(e)))
    case _ => Responded(ok, ErrorJson(None))
  }

  class TransactionFormCard {
    var isSubmitting: bool
    var submitError: Option<string>
    /** The current values of the inputs. */
    var values: RawTransaction
    /** Every call made to `fetch`, `reset` and `onTransactionAdded`, oldest first. */
    var calls: seq<Call>
    /** The request the handler is awaiting, if it is suspended at `await fetch`. */
    var pending: Option<RawTransaction>
    const today: string

    /**
     * The handler is suspended exactly while the form says it is submitting,
     * and the error it cleared on entry stays cleared until it resumes.
     */
    ghost predicate Valid()
      reads this
    {
      (isSubmitting <==> pending.Some?) && (isSubmitting ==> submitError == None)
    }

    constructor (today: string)
      ensures Valid() && this.today == today
      ensures !isSubmitting && submitError == None && values == DefaultValues(today)
      ensures calls == [] && pending == None
    {
      this.today := today;
      isSubmitting := false;
      submitError := None;
      values := DefaultValues(today);
      calls := [];
      pending := None;
    }

    /**
     * Every input and the submit button carry `disabled={isSubmitting}`: all
     * six controls are disabled exactly while a request is in flight.
     */
    function Disabled(c: Control): (d: bool)
      reads this
      ensures d <==> isSubmitting
      ensures Valid() ==> (d <==> pending.Some?)
    {
      isSubmitting
    }

    /** The button reads "Adding..." exactly while a request is in flight. */
    function SubmitLabel(): (text: string)
      reads this
      ensures text == AddingLabel <==> isSubmitting
      ensures text == AddLabel <==> !isSubmitting
      ensures Valid() ==> (text == AddingLabel <==> pending.Some?)
    {
      if isSubmitting then AddingLabel else AddLabel
    }

    /**
     * The user types into the form. All inputs share the one `disabled` flag,
     * so while it is set no input takes anything.
     */
    method Edit(v: RawTransaction)
      requires Valid()
      modifies this
      ensures Valid()
      ensures values == if old(isSubmitting) then old(values) else v
      ensures isSubmitting == old(isSubmitting) && submitError == old(submitError)
      ensures calls == old(calls) && pending == old(pending)
    {
      if !isSubmitting {
        values := v;
      }
    }

    /**
     * A form submission that reaches `onSubmit`, up to its `await fetch`
     * (the browser's own checks of the number and date inputs come earlier).
     * While a request is in flight the button is disabled and nothing happens.
     */
    method Submit()
      requires Valid()
      modifies this
      ensures Valid() && values == old(values)
      ensures old(isSubmitting) ==>
                isSubmitting && submitError == old(submitError) && calls == old(calls) && pending == old(pending)
      ensures !old(isSubmitting) && CreateTransactionSchema(Object(old(values))).Err? ==>
                !isSubmitting && pending == None && calls == old(calls)
                && submitError == Some(IssuesMessage(CreateTransactionSchema(Object(old(values))).error))
      ensures !old(isSubmitting) && CreateTransactionSchema(Object(old(values))).Ok? ==>
                isSubmitting && submitError == None && pending == Some(old(values))
                && calls == old(calls) + [Post(old(values), true)]
    {
      if Disabled(SubmitButton) {
        return;
      }
      isSubmitting := true;
      submitError := None;
      var parsed := CreateTransactionSchema(Object(values));
      if parsed.Err? {
        submitError := Some(IssuesMessage(parsed.error));
        isSubmitting := false;
        return;
      }
      calls := calls + [Post(values, Disabled(AmountInput))];
      pending := Some(values);
    }

    /** The rest of `onSubmit`, run when the reply to the pending request arrives. */
    method Settle(reply: Reply)
      requires Valid() && pending.Some?
      modifies this
      ensures Valid() && !isSubmitting && pending == None
      ensures OutcomeOf(reply).Succeeded? ==>
                submitError == None && values == DefaultValues(today)
                && calls == old(calls) + [Reset, TransactionAdded]
      ensures OutcomeOf(reply).Failed? ==>
                submitError == Some(OutcomeOf(reply).message) && values == old(values) && calls == old(calls)
    {
      match OutcomeOf(reply) {
        case Succeeded =>
          values := DefaultValues(today);
          calls := calls + [Reset, TransactionAdded];
        case Failed(message) =>
          submitError := Some(message);
      }
      isSubmitting := false;
      pending := None;
    }
  }

  /**
   * One submission end to end: the form's handler, the route's POST handler
   * on the store, and the reply. The form resets and tells its parent exactly
   * when the store gained a row, and a locally valid submission by a signed-in
   * user fails only when the store does.
   */
  method SubmitToServer(form: TransactionFormCard, store: TransactionsRoute.TransactionStore,
                        session: Option<Domain.UserId>, storeFails: bool)
    requires form.Valid() && !form.isSubmitting && store.Valid()
    modifies form, store
    ensures form.Valid() && !form.isSubmitting && store.Valid()
    ensures |form.calls| >= |old(form.calls)|
    ensures (form.calls[|old(form.calls)|..] == [Post(old(form.values), true), Reset, TransactionAdded])
            <==> |store.rows| == |old(store.rows)| + 1
    ensures store.rows == old(store.rows) || |store.rows| == |old(store.rows)| + 1
    ensures CreateTransactionSchema(Object(old(form.values))).Ok? && session.Some? && !storeFails ==>
              |store.rows| == |old(store.rows)| + 1 && form.submitError == None
  {
    form.Submit();
    if form.pending.Some? {
      var response := store.Post(session, TransactionsRoute.Json(Object(form.pending.value)), storeFails);
      form.Settle(ReplyOf(response));
    }
  }
}
