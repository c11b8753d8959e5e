/** The backend budget ledger (backend/controller/budgetController.js and
    expenseController.js): a table of monthly budgets, one per user and
    month, and the expenses recorded against them. Recording an expense
    checks the remaining budget of the clock's month and decrements it. */
module Ledger {
  import opened Seqs
  import opened Clock

  type UserId = string

  datatype Budget = Budget(
    id: nat, user: UserId, month: int, year: int,
    totalBudget: real, remainingBudget: real)

  /** A stored expense; `budget` is the id of the budget it was charged to
      and `date` the clock value at which it was recorded. */
  datatype Expense = Expense(
    id: nat, user: UserId, budget: nat, amount: real,
    category: string, description: string, date: Clock)

  /** The body of an add-expense request. A `date` sent by the client is
      part of the body but the controller never reads it. */
  datatype ExpenseRequest = ExpenseRequest(
    amount: real, category: string, description: string, date: Option<string>)

  datatype SetOutcome = Created(budget: Budget) | BudgetAlreadyExists

  datatype AddOutcome =
    | Added(expense: Expense, remainingBudget: real)
    | SetBudgetFirst
    | BudgetExceeded

  /** The answer of the current-budget query. */
  datatype BudgetView = BudgetView(total: real, remaining: real, spent: real)

  predicate Matches(b: Budget, user: UserId, month: int, year: int)
  {
    b.user == user && b.month == month && b.year == year
  }

  /** `Budget.findOne({user, month, year})`: the position of the first
      matching budget, if any. */
  function Find(budgets: seq<Budget>, user: UserId, month: int, year: int): (r: Option<nat>)
    ensures r.Some? ==> r.value < |budgets| && Matches(budgets[r.value], user, month, year)
    ensures r.Some? ==> forall j :: 0 <= j < r.value ==> !Matches(budgets[j], user, month, year)
    ensures r.None? <==> forall j :: 0 <= j < |budgets| ==> !Matches(budgets[j], user, month, year)
  {
    if budgets == [] then None
    else if Matches(budgets[0], user, month, year) then Some(0)
    else match Find(budgets[1..], user, month, year)
      case None => None
      case Some(k) => Some(k + 1)
  }

  /** The total amount of the expenses charged to budget `b`. */
  function SpentOn(expenses: seq<Expense>, b: nat): real
  {
    if expenses == [] then 0.0
    else
      var last := expenses[|expenses| - 1];
      SpentOn(expenses[..|expenses| - 1], b) + (if last.budget == b then last.amount else 0.0)
  }

  /** Appending one expense adds its amount to its own budget only. */
  lemma {:induction false} SpentOnAppend(expenses: seq<Expense>, e: Expense, b: nat)
    ensures SpentOn(expenses + [e], b) == SpentOn(expenses, b) + (if e.budget == b then e.amount else 0.0)
  {
    assert (expenses + [e])[..|expenses|] == expenses;
  }

  /** A budget that no expense is charged to has spent nothing. */
  lemma {:induction false} SpentOnUnlinked(expenses: seq<Expense>, b: nat)
    requires forall i :: 0 <= i < |expenses| ==> expenses[i].budget != b
    ensures SpentOn(expenses, b) == 0.0
  {
    if expenses != [] {
      SpentOnUnlinked(expenses[..|expenses| - 1], b);
    }
  }

  /** Budget ids are table positions. */
  predicate BudgetIds(budgets: seq<Budget>)
  {
    forall i :: 0 <= i < |budgets| ==> budgets[i].id == i
  }

  /** Expense ids are table positions, and each expense is charged to an
      existing budget of its own user and of the month it was recorded in. */
  predicate ExpensesLinked(budgets: seq<Budget>, expenses: seq<Expense>)
  {
    forall i :: 0 <= i < |expenses| ==>
      && expenses[i].id == i
      && expenses[i].budget < |budgets|
      && Matches(budgets[expenses[i].budget], expenses[i].user,
                 MonthNumber(expenses[i].date), expenses[i].date.year)
  }

  /** At most one budget per user and month. */
  predicate OnePerMonth(budgets: seq<Budget>)
  {
    forall i, j :: 0 <= i < j < |budgets| ==>
      !Matches(budgets[j], budgets[i].user, budgets[i].month, budgets[i].year)
  }

  /** What a budget has spent (total minus remaining) is the sum of the
      expenses charged to it. */
  predicate SpentAgrees(budgets: seq<Budget>, expenses: seq<Expense>)
  {
    forall i :: 0 <= i < |budgets| ==>
      budgets[i].totalBudget - budgets[i].remainingBudget == SpentOn(expenses, i)
  }

  /** The budget table after `amount` is taken from budget `k`'s remaining
      amount; every other budget and every other field stay as they were. */
  function Charged(budgets: seq<Budget>, k: nat, amount: real): (r: seq<Budget>)
    requires k < |budgets|
    ensures |r| == |budgets|
    ensures r[k] == budgets[k].(remainingBudget := budgets[k].remainingBudget - amount)
    ensures forall i :: 0 <= i < |budgets| && i != k ==> r[i] == budgets[i]
  {
    budgets[k := budgets[k].(remainingBudget := budgets[k].remainingBudget - amount)]
  }

  /** Charging one more expense to budget `k` and decrementing that
      budget's remaining amount by the expense's amount keeps the ledger's
      invariant. */
  lemma {:induction false} ChargeKeepsInvariant(budgets: seq<Budget>, expenses: seq<Expense>, k: nat, e: Expense)
    requires BudgetIds(budgets) && ExpensesLinked(budgets, expenses)
    requires OnePerMonth(budgets) && SpentAgrees(budgets, expenses)
    requires k < |budgets| && e.id == |expenses| && e.budget == k
    requires Matches(budgets[k], e.user, MonthNumber(e.date), e.date.year)
    ensures var budgets' := Charged(budgets, k, e.amount);
            && BudgetIds(budgets') && ExpensesLinked(budgets', expenses + [e])
            && OnePerMonth(budgets') && SpentAgrees(budgets', expenses + [e])
  {
    var budgets' := Charged(budgets, k, e.amount);
    var expenses' := expenses + [e];
    forall i | 0 <= i < |expenses'|
      ensures expenses'[i].id == i && expenses'[i].budget < |budgets'|
      ensures Matches(budgets'[expenses'[i].budget], expenses'[i].user,
                      MonthNumber(expenses'[i].date), expenses'[i].date.year)
    {
      if i < |expenses| {
        assert expenses'[i] == expenses[i];
      }
    }
    forall i | 0 <= i < |budgets'|
      ensures budgets'[i].totalBudget - budgets'[i].remainingBudget == SpentOn(expenses', i)
    {
      SpentOnAppend(expenses, e, i);
    }
  }

  class Ledger {
    var budgets: seq<Budget>
    var expenses: seq<Expense>

    /** The ledger's invariant: ids are table positions; an expense is
        charged to an existing budget of its own user and of the month it
        was recorded in; there is at most one budget per user and month;
        and what a budget has spent (total minus remaining) is the sum of
        the expenses charged to it. */
    ghost predicate Valid()
      reads this
    {
      BudgetIds(budgets) && ExpensesLinked(budgets, expenses)
      && OnePerMonth(budgets) && SpentAgrees(budgets, expenses)
    }

    constructor ()
      ensures Valid()
      ensures budgets == [] && expenses == []
    {
      budgets := [];
      expenses := [];
    }

    /** `setBudget`: refuses a second budget for the same user and month;
        otherwise stores a new budget whose remaining amount is its total.
        Neither the month nor the total is validated. */
    method SetBudget(user: UserId, month: int, year: int, totalBudget: real) returns (r: SetOutcome)
      requires Valid()
      modifies this
      ensures Valid()
      ensures expenses == old(expenses)
      ensures old(Find(budgets, user, month, year)).Some? ==>
                r == BudgetAlreadyExists && budgets == old(budgets)
      ensures old(Find(budgets, user, month, year)).None? ==>
                && r == Created(Budget(|old(budgets)|, user, month, year, totalBudget, totalBudget))
                && budgets == old(budgets) + [r.budget]
    {
      var existing := Find(budgets, user, month, year);
      if existing.Some? {
        return BudgetAlreadyExists;
      }
      var b := Budget(|budgets|, user, month, year, totalBudget, totalBudget);
      SpentOnUnlinked(expenses, |budgets|);
      budgets := budgets + [b];
      r := Created(b);
    }

    /** `getCurrentBudget`: the budget of the clock's month, reported with
        `spent = total - remaining`, which is what its expenses add up to. */
    function CurrentBudget(user: UserId, now: Clock): (r: Option<BudgetView>)
      requires Valid()
      reads this
      ensures r.None? <==> Find(budgets, user, MonthNumber(now), now.year).None?
      ensures r.Some? ==>
                var k := Find(budgets, user, MonthNumber(now), now.year).value;
                && r.value.total == budgets[k].totalBudget
                && r.value.remaining == budgets[k].remainingBudget
                && r.value.spent == SpentOn(expenses, k)
    {
      match Find(budgets, user, MonthNumber(now), now.year)
      case None => None
      case Some(k) =>
        var b := budgets[k];
        Some(BudgetView(b.totalBudget, b.remainingBudget, b.totalBudget - b.remainingBudget))
    }

    /** `addExpense`: finds the budget of the clock's month; refuses when
        there is none or when the amount is strictly above what remains;
        otherwise records one expense dated by the clock and decrements the
        remaining budget by exactly the amount. The amount's sign is not
        checked. */
    method AddExpense(user: UserId, req: ExpenseRequest, now: Clock) returns (r: AddOutcome)
      requires Valid()
      modifies this
      ensures Valid()
      ensures old(Find(budgets, user, MonthNumber(now), now.year)).None? ==>
                r == SetBudgetFirst && budgets == old(budgets) && expenses == old(expenses)
      ensures old(Find(budgets, user, MonthNumber(now), now.year)).Some? ==>
                var k := old(Find(budgets, user, MonthNumber(now), now.year)).value;
                if req.amount > old(budgets[k].remainingBudget) then
                  r == BudgetExceeded && budgets == old(budgets) && expenses == old(expenses)
                else
                  && r.Added?
                  && r.expense == Expense(|old(expenses)|, user, k, req.amount,
                                          req.category, req.description, now)
                  && expenses == old(expenses) + [r.expense]
                  && budgets == Charged(old(budgets), k, req.amount)
                  && r.remainingBudget == budgets[k].remainingBudget >= 0.0
    {
      var found := Find(budgets, user, MonthNumber(now), now.year);
      if found.None? {
        return SetBudgetFirst;
      }
      var k := found.value;
      var budget := budgets[k];
      if req.amount > budget.remainingBudget {
        return BudgetExceeded;
      }
      var expense := Expense(|expenses|, user, k, req.amount, req.category, req.description, now);
      ChargeKeepsInvariant(budgets, expenses, k, expense);
      expenses := expenses + [expense];
      budgets := Charged(budgets, k, req.amount);
      r := Added(expense, budgets[k].remainingBudget);
    }
  }

  /** The walk-through of the ledger: a budget of 1000, an expense of 400
      accepted, one of 700 refused, and one of exactly the 600 left
      accepted, which leaves nothing. */
  method LedgerWalkThrough(user: UserId, now: Clock)
  {
    var ledger := new Ledger();
    var first := ledger.SetBudget(user, MonthNumber(now), now.year, 1000.0);
    assert first.Created?;
    var a := ledger.AddExpense(user, ExpenseRequest(400.0, "Food", "", None), now);
    assert a.Added? && a.remainingBudget == 600.0;
    var b := ledger.AddExpense(user, ExpenseRequest(700.0, "Travel", "", None), now);
    assert b == BudgetExceeded;
    var c := ledger.AddExpense(user, ExpenseRequest(600.0, "Bills", "", None), now);
    assert c.Added? && c.remainingBudget == 0.0;
    var again := ledger.SetBudget(user, MonthNumber(now), now.year, 50.0);
    assert again == BudgetAlreadyExists;
    assert ledger.CurrentBudget(user, now) == Some(BudgetView(1000.0, 0.0, 1000.0));
  }
}
