/** The earlier expense page (Bugget_planer-main/src/views/pages/Expenses.jsx):
    it posts the form to the backend's add-expense endpoint and, when the
    server answers with data, appends that answer to a page-local list and
    bumps a running total by the form's amount. The request is split in two
    steps, sending and settling, so that `loading` and the form captured by
    the pending request are visible in between. */
module LegacyExpenses {
  import opened Seqs
  import opened Clock
  import opened Forms
  import Ledger

  datatype ExpenseForm = ExpenseForm(category: string, amount: Field, description: string, date: string)

  function BlankForm(today: string): (r: ExpenseForm)
    ensures r.category == "" && r.amount.Empty? && r.description == "" && r.date == today
  {
    ExpenseForm("", Empty, "", today)
  }

  /** The check of `handleAddExpense`: a category and an amount. */
  predicate Complete(f: ExpenseForm)
  {
    f.category != "" && f.amount.Entered?
  }

  /** The request body: the whole form, date included. */
  function RequestOf(f: ExpenseForm): (r: Ledger.ExpenseRequest)
    requires f.amount.Entered?
    ensures r.amount == f.amount.value && r.category == f.category
    ensures r.description == f.description && r.date == Some(f.date)
  {
    Ledger.ExpenseRequest(f.amount.value, f.category, f.description, Some(f.date))
  }

  /** The body of a created-expense answer, which the page stores whole. */
  datatype AddedBody = AddedBody(expense: Ledger.Expense, remainingBudget: real)

  /** How the request ended: an answer whose data is present or empty, or
      an error (an HTTP error status or no answer at all). */
  datatype RequestOutcome = Responded(data: Option<AddedBody>) | Failed

  /** What the client sees of the backend's outcome: a created expense comes
      back as data, while the two refusals are error statuses, which the
      HTTP client raises as errors. */
  function OutcomeOf(o: Ledger.AddOutcome): (r: RequestOutcome)
    ensures r.Failed? <==> !o.Added?
    ensures o.Added? ==> r == Responded(Some(AddedBody(o.expense, o.remainingBudget)))
  {
    match o
    case Added(e, remaining) => Responded(Some(AddedBody(e, remaining)))
    case SetBudgetFirst => Failed
    case BudgetExceeded => Failed
  }

  /** The sum of the amounts of the stored answers' expenses. */
  function Total(items: seq<AddedBody>): real
  {
    if items == [] then 0.0 else Total(items[..|items| - 1]) + items[|items| - 1].expense.amount
  }

  datatype SendResult = FillAllFields | Sent

  class ExpensesPage {
    var expenses: seq<AddedBody>
    var formData: ExpenseForm
    var loading: bool
    var totalExpenses: real
    /** The form as it was when the request in flight was sent. */
    var pending: Option<ExpenseForm>

    /** A request is in flight exactly while the page is loading, it was
        sent from a complete form, and the running total is the sum of the
        stored expenses' amounts. */
    ghost predicate Valid()
      reads this
    {
      && (pending.Some? <==> loading)
      && (pending.Some? ==> Complete(pending.value))
      && totalExpenses == Total(expenses)
    }

    constructor (today: string)
      ensures Valid()
      ensures expenses == [] && totalExpenses == 0.0 && formData == BlankForm(today)
      ensures !loading && pending == None
    {
      expenses := [];
      formData := BlankForm(today);
      loading := false;
      totalExpenses := 0.0;
      pending := None;
    }

    /** A change to one of the inputs; the inputs stay enabled while a
        request is in flight. */
    method Edit(f: ExpenseForm)
      modifies this
      ensures formData == f
      ensures expenses == old(expenses) && totalExpenses == old(totalExpenses)
      ensures loading == old(loading) && pending == old(pending)
    {
      formData := f;
    }

    /** The first half of `handleAddExpense`: an incomplete form is refused
        before any request; otherwise the page starts loading and the
        request carries the form as it is now. The submit button is
        disabled while loading, hence the precondition. */
    method Send() returns (r: SendResult)
      requires !loading
      modifies this
      ensures !Complete(old(formData)) ==>
                r == FillAllFields && !loading && pending == old(pending)
      ensures Complete(old(formData)) ==>
                r == Sent && loading && pending == Some(old(formData))
      ensures expenses == old(expenses) && totalExpenses == old(totalExpenses)
      ensures formData == old(formData)
    {
      if !Complete(formData) {
        return FillAllFields;
      }
      loading := true;
      pending := Some(formData);
      r := Sent;
    }

    /** The second half: an answer with data appends that data and bumps
        the total by the amount of the form the request was sent with, then
        clears the form (dropping any edit made meanwhile); an empty answer
        or an error changes neither list nor total. Loading ends on every
        path. */
    method Settle(outcome: RequestOutcome, today: string)
      requires pending.Some? && pending.value.amount.Entered?
      modifies this
      ensures !loading && pending == None
      ensures outcome.Responded? && outcome.data.Some? ==>
                && expenses == old(expenses) + [outcome.data.value]
                && totalExpenses == old(totalExpenses) + old(pending).value.amount.value
                && formData == BlankForm(today)
      ensures !(outcome.Responded? && outcome.data.Some?) ==>
                expenses == old(expenses) && totalExpenses == old(totalExpenses) && formData == old(formData)
    {
      if outcome.Responded? && outcome.data.Some? {
        expenses := expenses + [outcome.data.value];
        totalExpenses := totalExpenses + pending.value.amount.value;
        formData := BlankForm(today);
      }
      loading := false;
      pending := None;
    }

    /** The whole round trip against the backend ledger: sending, the
        server's add-expense, and settling with what the client sees of its
        outcome. Because the server records exactly the amount it was sent,
        the running total stays the sum of the stored expenses' amounts. */
    method SubmitTo(ledger: Ledger.Ledger, user: Ledger.UserId, now: Clock, today: string)
      returns (r: SendResult, outcome: Option<RequestOutcome>)
      requires Valid() && !loading
      requires ledger.Valid()
      modifies this, ledger
      ensures Valid() && ledger.Valid()
      ensures !loading
      ensures r == FillAllFields <==> !Complete(old(formData))
      ensures r == FillAllFields ==>
                && outcome == None && ledger.budgets == old(ledger.budgets) && ledger.expenses == old(ledger.expenses)
                && expenses == old(expenses) && totalExpenses == old(totalExpenses) && formData == old(formData)
      ensures r == Sent ==> outcome.Some?
      ensures outcome.Some? && outcome.value.Responded? ==>
                && outcome.value.data.Some?
                && expenses == old(expenses) + [outcome.value.data.value]
                && ledger.expenses == old(ledger.expenses) + [outcome.value.data.value.expense]
      ensures outcome.Some? && outcome.value.Failed? ==>
                expenses == old(expenses) && ledger.expenses == old(ledger.expenses)
    {
      r := Send();
      if r == FillAllFields {
        return r, None;
      }
      var form := pending.value;
      var answer := ledger.AddExpense(user, RequestOf(form), now);
      var seen := OutcomeOf(answer);
      var before := expenses;
      Settle(seen, today);
      if seen.Responded? {
        assert (before + [seen.data.value])[..|before|] == before;
      }
      outcome := Some(seen);
    }
  }
}
