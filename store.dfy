/** The client-side store (src/contexts/BudgetContext.jsx): the lists of
    expenses, incomes and budget goals with their add, update and delete
    operations, and the figures derived from them for the current month. */
module Store {
  import opened Seqs
  import opened Text

  type Id = string

  /** A stored record: the fields the caller gave plus the id the store
      assigned (`{ ...e, id: uid() }`). */
  datatype Rec<T> = Rec(id: Id, body: T)

  datatype ExpenseData = ExpenseData(
    amount: real, category: string, date: string, note: string, currency: string)
  datatype IncomeData = IncomeData(
    amount: real, source: string, date: string, note: string, currency: string)
  datatype GoalData = GoalData(category: string, limit: real, currency: string)

  type ExpenseRec = Rec<ExpenseData>
  type IncomeRec = Rec<IncomeData>
  type GoalRec = Rec<GoalData>

  /** The fields an update may carry; `{ ...e, ...updates }` keeps every
      field the update does not name. */
  datatype ExpensePatch = ExpensePatch(
    amount: Option<real>, category: Option<string>, date: Option<string>, note: Option<string>)
  datatype GoalPatch = GoalPatch(limit: Option<real>)

  function Or<T>(o: Option<T>, d: T): T
  {
    if o.Some? then o.value else d
  }

  function MergeExpense(d: ExpenseData, p: ExpensePatch): (r: ExpenseData)
    ensures r.currency == d.currency
    ensures p.amount.Some? ==> r.amount == p.amount.value
    ensures p.amount.None? ==> r.amount == d.amount
    ensures r.category == Or(p.category, d.category) && r.date == Or(p.date, d.date)
    ensures r.note == Or(p.note, d.note)
  {
    ExpenseData(Or(p.amount, d.amount), Or(p.category, d.category),
                Or(p.date, d.date), Or(p.note, d.note), d.currency)
  }

  function MergeGoal(d: GoalData, p: GoalPatch): (r: GoalData)
    ensures r.category == d.category && r.currency == d.currency
    ensures r.limit == Or(p.limit, d.limit)
  {
    d.(limit := Or(p.limit, d.limit))
  }

  // ---- by-id list operations ----

  /** `prev.filter(x => x.id !== id)`. */
  function WithoutId<T>(s: seq<Rec<T>>, id: Id): (r: seq<Rec<T>>)
    ensures forall i :: 0 <= i < |r| ==> r[i] in s && r[i].id != id
    ensures forall i :: 0 <= i < |s| && s[i].id != id ==> s[i] in r
  {
    Filter(s, (x: Rec<T>) => x.id != id)
  }

  /** Deleting by id keeps the other records in their order: it distributes
      over concatenation and leaves a list without that id as it is. */
  lemma {:induction false} WithoutIdOrder<T>(a: seq<Rec<T>>, b: seq<Rec<T>>, id: Id)
    ensures WithoutId(a + b, id) == WithoutId(a, id) + WithoutId(b, id)
    ensures (forall i :: 0 <= i < |a| ==> a[i].id != id) ==> WithoutId(a, id) == a
  {
    FilterConcat(a, b, (x: Rec<T>) => x.id != id);
    if forall i :: 0 <= i < |a| ==> a[i].id != id {
      FilterKeepsAll(a, (x: Rec<T>) => x.id != id);
    }
  }

  /** `prev.map(x => x.id === id ? { ...x, ...updates } : x)`. */
  function UpdatedById<T>(s: seq<Rec<T>>, id: Id, f: T -> T): (r: seq<Rec<T>>)
    ensures |r| == |s|
    ensures forall i :: 0 <= i < |s| ==> r[i].id == s[i].id
    ensures forall i :: 0 <= i < |s| && s[i].id != id ==> r[i] == s[i]
    ensures forall i :: 0 <= i < |s| && s[i].id == id ==> r[i].body == f(s[i].body)
  {
    if s == [] then []
    else [if s[0].id == id then Rec(id, f(s[0].body)) else s[0]] + UpdatedById(s[1..], id, f)
  }

  /** Deleting a record after updating it is the same as deleting it: an
      update touches nothing but the records with that id. */
  lemma {:induction false} DeleteAfterUpdate<T>(s: seq<Rec<T>>, id: Id, f: T -> T)
    ensures WithoutId(UpdatedById(s, id, f), id) == WithoutId(s, id)
  {
    if s != [] {
      var u := UpdatedById(s, id, f);
      assert u == [u[0]] + UpdatedById(s[1..], id, f);
      assert s == [s[0]] + s[1..];
      WithoutIdOrder([u[0]], UpdatedById(s[1..], id, f), id);
      WithoutIdOrder([s[0]], s[1..], id);
      DeleteAfterUpdate(s[1..], id, f);
      if s[0].id == id {
        assert WithoutId([u[0]], id) == [] == WithoutId([s[0]], id);
      } else {
        assert u[0] == s[0];
      }
    }
  }

  // ---- monthly figures ----

  /** `expenses.filter(e => e.date.startsWith(month))`. */
  function ExpensesIn(s: seq<ExpenseRec>, month: string): (r: seq<ExpenseRec>)
    ensures forall i :: 0 <= i < |r| ==> r[i] in s && StartsWith(r[i].body.date, month)
    ensures forall i :: 0 <= i < |s| && StartsWith(s[i].body.date, month) ==> s[i] in r
  {
    Filter(s, (e: ExpenseRec) => StartsWith(e.body.date, month))
  }

  /** `incomes.filter(i => i.date.startsWith(month))`. */
  function IncomesIn(s: seq<IncomeRec>, month: string): (r: seq<IncomeRec>)
    ensures forall i :: 0 <= i < |r| ==> r[i] in s && StartsWith(r[i].body.date, month)
    ensures forall i :: 0 <= i < |s| && StartsWith(s[i].body.date, month) ==> s[i] in r
  {
    Filter(s, (x: IncomeRec) => StartsWith(x.body.date, month))
  }

  /** `reduce((s, e) => s + e.amount, 0)` over expenses, a left fold. */
  function Spent(s: seq<ExpenseRec>): real
  {
    if s == [] then 0.0 else Spent(s[..|s| - 1]) + s[|s| - 1].body.amount
  }

  /** The same fold over incomes. */
  function Earned(s: seq<IncomeRec>): real
  {
    if s == [] then 0.0 else Earned(s[..|s| - 1]) + s[|s| - 1].body.amount
  }

  /** A prepended expense adds its amount to the total. */
  lemma {:induction false} SpentPrepend(e: ExpenseRec, s: seq<ExpenseRec>)
    ensures Spent([e] + s) == e.body.amount + Spent(s)
  {
    if s != [] {
      SpentPrepend(e, s[..|s| - 1]);
      assert ([e] + s)[..|s|] == [e] + s[..|s| - 1];
    }
  }

  /** Totals of concatenated lists add up. */
  lemma {:induction false} SpentConcat(a: seq<ExpenseRec>, b: seq<ExpenseRec>)
    ensures Spent(a + b) == Spent(a) + Spent(b)
  {
    if b != [] {
      SpentConcat(a, b[..|b| - 1]);
      assert (a + b)[..|a + b| - 1] == a + b[..|b| - 1];
    } else {
      assert a + b == a;
    }
  }

  /** The month's figures: `totalIncome`, `totalExpenses` and
      `balance = totalIncome - totalExpenses`. */
  datatype Totals = Totals(totalIncome: real, totalExpenses: real, balance: real)

  function MonthTotals(expenses: seq<ExpenseRec>, incomes: seq<IncomeRec>, month: string): (r: Totals)
    ensures r.totalExpenses == Spent(ExpensesIn(expenses, month))
    ensures r.totalIncome == Earned(IncomesIn(incomes, month))
    ensures r.balance == r.totalIncome - r.totalExpenses
  {
    var spent := Spent(ExpensesIn(expenses, month));
    var earned := Earned(IncomesIn(incomes, month));
    Totals(earned, spent, earned - spent)
  }

  /** Adding an expense dated in the month raises the month's expenses by
      its amount and lowers the balance by as much; one dated in another
      month changes neither. */
  lemma {:induction false} AddExpenseMoves(e: ExpenseRec, expenses: seq<ExpenseRec>, incomes: seq<IncomeRec>, month: string)
    ensures var before, after := MonthTotals(expenses, incomes, month), MonthTotals([e] + expenses, incomes, month);
            if StartsWith(e.body.date, month) then
              after.totalExpenses == before.totalExpenses + e.body.amount
              && after.balance == before.balance - e.body.amount
            else after == before
  {
    var p := (x: ExpenseRec) => StartsWith(x.body.date, month);
    FilterConcat([e], expenses, p);
    if p(e) {
      SpentPrepend(e, ExpensesIn(expenses, month));
    } else {
      assert Filter([e], p) == [];
      assert [] + Filter(expenses, p) == Filter(expenses, p);
    }
  }

  /** A prepended income adds its amount to the total. */
  lemma {:induction false} EarnedPrepend(x: IncomeRec, s: seq<IncomeRec>)
    ensures Earned([x] + s) == x.body.amount + Earned(s)
  {
    if s != [] {
      EarnedPrepend(x, s[..|s| - 1]);
      assert ([x] + s)[..|s|] == [x] + s[..|s| - 1];
    }
  }

  /** Adding an income dated in the month raises the month's income and
      balance by its amount; one dated in another month changes neither. */
  lemma {:induction false} AddIncomeMoves(x: IncomeRec, expenses: seq<ExpenseRec>, incomes: seq<IncomeRec>, month: string)
    ensures var before, after := MonthTotals(expenses, incomes, month), MonthTotals(expenses, [x] + incomes, month);
            if StartsWith(x.body.date, month) then
              after.totalIncome == before.totalIncome + x.body.amount
              && after.balance == before.balance + x.body.amount
            else after == before
  {
    var p := (y: IncomeRec) => StartsWith(y.body.date, month);
    FilterConcat([x], incomes, p);
    if p(x) {
      EarnedPrepend(x, IncomesIn(incomes, month));
    } else {
      assert Filter([x], p) == [];
      assert [] + Filter(incomes, p) == Filter(incomes, p);
    }
  }

  // ---- spending per category ----

  /** One entry of `categorySpending`, in `Object.entries` form. */
  datatype CategoryTotal = CategoryTotal(category: string, amount: real)

  function Keys(entries: seq<CategoryTotal>): seq<string>
  {
    seq(|entries|, i requires 0 <= i < |entries| => entries[i].category)
  }

  predicate DistinctKeys(entries: seq<CategoryTotal>)
  {
    forall i, j :: 0 <= i < j < |entries| ==> entries[i].category != entries[j].category
  }

  /** Position of a category's entry, if it has one. */
  function IndexOf(entries: seq<CategoryTotal>, c: string): (r: Option<nat>)
    ensures r.Some? ==> r.value < |entries| && entries[r.value].category == c
    ensures r.None? <==> forall i :: 0 <= i < |entries| ==> entries[i].category != c
  {
    if entries == [] then None
    else if entries[0].category == c then Some(0)
    else match IndexOf(entries[1..], c)
      case None => None
      case Some(k) => Some(k + 1)
  }

  /** `map[c] || 0`: a category's amount, 0 when it has no entry. */
  function Lookup(entries: seq<CategoryTotal>, c: string): real
  {
    match IndexOf(entries, c)
    case None => 0.0
    case Some(k) => entries[k].amount
  }

  /** One step of the loop: `map[c] = (map[c] || 0) + a`. A new key goes at
      the end, as a JavaScript object keeps string keys in insertion order. */
  function AddTo(entries: seq<CategoryTotal>, c: string, a: real): seq<CategoryTotal>
  {
    match IndexOf(entries, c)
    case None => entries + [CategoryTotal(c, a)]
    case Some(k) => entries[k := CategoryTotal(c, entries[k].amount + a)]
  }

  /** `categorySpending` for a list of expenses, as the loop builds it. */
  function Grouped(s: seq<ExpenseRec>): seq<CategoryTotal>
  {
    if s == [] then []
    else AddTo(Grouped(s[..|s| - 1]), s[|s| - 1].body.category, s[|s| - 1].body.amount)
  }

  /** What the expenses of one category add up to. */
  function SpentIn(s: seq<ExpenseRec>, c: string): real
  {
    if s == [] then 0.0
    else SpentIn(s[..|s| - 1], c) + (if s[|s| - 1].body.category == c then s[|s| - 1].body.amount else 0.0)
  }

  /** The sum of the entries' amounts. */
  function EntriesTotal(entries: seq<CategoryTotal>): real
  {
    if entries == [] then 0.0 else EntriesTotal(entries[..|entries| - 1]) + entries[|entries| - 1].amount
  }

  /** A step adds its category to the keys and no other. */
  lemma {:induction false} AddToKeys(entries: seq<CategoryTotal>, c: string, a: real, d: string)
    ensures d in Keys(AddTo(entries, c, a)) <==> d in Keys(entries) || d == c
  {
    var r := AddTo(entries, c, a);
    match IndexOf(entries, c)
    case None =>
      assert Keys(r) == Keys(entries) + [c];
    case Some(k) =>
      assert Keys(r) == Keys(entries);
      assert Keys(entries)[k] == c;
  }

  /** A step keeps the keys distinct. */
  lemma {:induction false} AddToDistinct(entries: seq<CategoryTotal>, c: string, a: real)
    requires DistinctKeys(entries)
    ensures DistinctKeys(AddTo(entries, c, a))
  {
    match IndexOf(entries, c)
    case None =>
    case Some(k) =>
      var r := AddTo(entries, c, a);
      assert forall i :: 0 <= i < |r| ==> r[i].category == entries[i].category;
  }

  /** A step adds its amount to its own category's value only. */
  lemma {:induction false} AddToLookup(entries: seq<CategoryTotal>, c: string, a: real, d: string)
    requires DistinctKeys(entries)
    ensures Lookup(AddTo(entries, c, a), d) == Lookup(entries, d) + (if d == c then a else 0.0)
  {
    var r := AddTo(entries, c, a);
    match IndexOf(entries, c)
    case None =>
      LookupSnoc(entries, CategoryTotal(c, a), d);
    case Some(k) =>
      AddToDistinct(entries, c, a);
      LookupDistinct(entries, k);
      LookupDistinct(r, k);
      if d != c {
        IndexOfSameKeys(entries, r, d);
      }
  }

  /** A step adds its amount to the sum of the entries. */
  lemma {:induction false} AddToTotal(entries: seq<CategoryTotal>, c: string, a: real)
    ensures EntriesTotal(AddTo(entries, c, a)) == EntriesTotal(entries) + a
  {
    match IndexOf(entries, c)
    case None =>
      var r := AddTo(entries, c, a);
      assert r[..|r| - 1] == entries;
    case Some(k) =>
      EntriesTotalUpdate(entries, k, a);
  }

  /** With distinct keys, the entry at position `k` is the one found. */
  lemma {:induction false} LookupDistinct(entries: seq<CategoryTotal>, k: nat)
    requires DistinctKeys(entries) && k < |entries|
    ensures IndexOf(entries, entries[k].category) == Some(k)
  {
    if k > 0 {
      LookupDistinct(entries[1..], k - 1);
    }
  }

  /** Lists with the same keys find a key at the same position. */
  lemma {:induction false} IndexOfSameKeys(a: seq<CategoryTotal>, b: seq<CategoryTotal>, d: string)
    requires |a| == |b|
    requires forall i :: 0 <= i < |a| ==> a[i].category == b[i].category
    requires forall i :: 0 <= i < |a| && a[i].category == d ==> a[i] == b[i]
    ensures Lookup(a, d) == Lookup(b, d)
  {
    if a != [] && a[0].category != d {
      IndexOfSameKeys(a[1..], b[1..], d);
    }
  }

  /** A key appended at the end is found only when it is not there yet. */
  lemma {:induction false} LookupSnoc(entries: seq<CategoryTotal>, e: CategoryTotal, d: string)
    requires IndexOf(entries, e.category).None?
    ensures Lookup(entries + [e], d) == Lookup(entries, d) + (if d == e.category then e.amount else 0.0)
  {
    if entries == [] {
      assert entries + [e] == [e];
    } else {
      assert (entries + [e])[1..] == entries[1..] + [e];
      if entries[0].category != d {
        LookupSnoc(entries[1..], e, d);
      }
    }
  }

  /** Raising one entry raises the sum by as much. */
  lemma {:induction false} EntriesTotalUpdate(entries: seq<CategoryTotal>, k: nat, a: real)
    requires k < |entries|
    ensures EntriesTotal(entries[k := entries[k].(amount := entries[k].amount + a)]) == EntriesTotal(entries) + a
  {
    var r := entries[k := entries[k].(amount := entries[k].amount + a)];
    if k == |entries| - 1 {
      assert r[..|r| - 1] == entries[..|entries| - 1];
    } else {
      EntriesTotalUpdate(entries[..|entries| - 1], k, a);
      assert r[..|r| - 1] == entries[..|entries| - 1][k := entries[k].(amount := entries[k].amount + a)];
    }
  }

  /** What `categorySpending` holds: no key twice, each entry the total of
      its category, and the entries adding up to the total of the expenses. */
  lemma {:induction false} GroupedFacts(s: seq<ExpenseRec>)
    ensures DistinctKeys(Grouped(s))
    ensures forall c :: Lookup(Grouped(s), c) == SpentIn(s, c)
    ensures EntriesTotal(Grouped(s)) == Spent(s)
  {
    if s != [] {
      var init, last := s[..|s| - 1], s[|s| - 1];
      GroupedFacts(init);
      AddToDistinct(Grouped(init), last.body.category, last.body.amount);
      AddToTotal(Grouped(init), last.body.category, last.body.amount);
      forall c ensures Lookup(Grouped(s), c) == SpentIn(s, c) {
        AddToLookup(Grouped(init), last.body.category, last.body.amount, c);
      }
    }
  }

  /** `categorySpending` has an entry for exactly the categories present
      among the expenses. */
  lemma {:induction false} GroupedKeys(s: seq<ExpenseRec>, c: string)
    ensures c in Keys(Grouped(s)) <==> exists i :: 0 <= i < |s| && s[i].body.category == c
  {
    if s != [] {
      var init, last := s[..|s| - 1], s[|s| - 1];
      GroupedKeys(init, c);
      AddToKeys(Grouped(init), last.body.category, last.body.amount, c);
      if exists i :: 0 <= i < |s| && s[i].body.category == c {
        var i :| 0 <= i < |s| && s[i].body.category == c;
        if i < |s| - 1 {
          assert init[i].body.category == c;
        }
      }
      if c in Keys(Grouped(init)) {
        var i :| 0 <= i < |init| && init[i].body.category == c;
        assert s[i].body.category == c;
      }
    }
  }

  /** The loop behind `categorySpending` (and the expenses page's
      `catTotals`): one pass over the expenses, adding each amount to its
      category's entry. */
  method CategorySpending(monthly: seq<ExpenseRec>) returns (entries: seq<CategoryTotal>)
    ensures entries == Grouped(monthly)
  {
    entries := [];
    var i := 0;
    while i < |monthly|
      invariant 0 <= i <= |monthly|
      invariant entries == Grouped(monthly[..i])
    {
      var e := monthly[i];
      assert monthly[..i + 1][..i] == monthly[..i];
      entries := AddTo(entries, e.body.category, e.body.amount);
      i := i + 1;
    }
    assert monthly[..i] == monthly;
  }

  // ---- the store ----

  class BudgetStore {
    var expenses: seq<ExpenseRec>
    var incomes: seq<IncomeRec>
    var goals: seq<GoalRec>
    var currency: string

    /** The store starts from the lists it is given (the demo data). */
    constructor (expenses0: seq<ExpenseRec>, incomes0: seq<IncomeRec>, goals0: seq<GoalRec>)
      ensures expenses == expenses0 && incomes == incomes0 && goals == goals0
      ensures currency == "USD"
    {
      expenses, incomes, goals := expenses0, incomes0, goals0;
      currency := "USD";
    }

    /** `addExpense`: the new record, with a fresh id, goes to the front. */
    method AddExpense(e: ExpenseData, freshId: Id)
      modifies this
      ensures expenses == [Rec(freshId, e)] + old(expenses)
      ensures incomes == old(incomes) && goals == old(goals) && currency == old(currency)
    {
      expenses := [Rec(freshId, e)] + expenses;
    }

    /** `updateExpense`: merges the update into the records with that id. */
    method UpdateExpense(id: Id, p: ExpensePatch)
      modifies this
      ensures expenses == UpdatedById(old(expenses), id, (d: ExpenseData) => MergeExpense(d, p))
      ensures incomes == old(incomes) && goals == old(goals) && currency == old(currency)
    {
      expenses := UpdatedById(expenses, id, (d: ExpenseData) => MergeExpense(d, p));
    }

    /** `deleteExpense`: drops the records with that id. */
    method DeleteExpense(id: Id)
      modifies this
      ensures expenses == WithoutId(old(expenses), id)
      ensures incomes == old(incomes) && goals == old(goals) && currency == old(currency)
    {
      expenses := WithoutId(expenses, id);
    }

    /** `addIncome`: the new record, with a fresh id, goes to the front. */
    method AddIncome(x: IncomeData, freshId: Id)
      modifies this
      ensures incomes == [Rec(freshId, x)] + old(incomes)
      ensures expenses == old(expenses) && goals == old(goals) && currency == old(currency)
    {
      incomes := [Rec(freshId, x)] + incomes;
    }

    /** `deleteIncome`: drops the records with that id. */
    method DeleteIncome(id: Id)
      modifies this
      ensures incomes == WithoutId(old(incomes), id)
      ensures expenses == old(expenses) && goals == old(goals) && currency == old(currency)
    {
      incomes := WithoutId(incomes, id);
    }

    /** `addBudgetGoal`: unlike the other lists, goals are appended. */
    method AddBudgetGoal(g: GoalData, freshId: Id)
      modifies this
      ensures goals == old(goals) + [Rec(freshId, g)]
      ensures expenses == old(expenses) && incomes == old(incomes) && currency == old(currency)
    {
      goals := goals + [Rec(freshId, g)];
    }

    /** `updateBudgetGoal`: merges the update into the goals with that id. */
    method UpdateBudgetGoal(id: Id, p: GoalPatch)
      modifies this
      ensures goals == UpdatedById(old(goals), id, (d: GoalData) => MergeGoal(d, p))
      ensures expenses == old(expenses) && incomes == old(incomes) && currency == old(currency)
    {
      goals := UpdatedById(goals, id, (d: GoalData) => MergeGoal(d, p));
    }

    /** `deleteBudgetGoal`: drops the goals with that id. */
    method DeleteBudgetGoal(id: Id)
      modifies this
      ensures goals == WithoutId(old(goals), id)
      ensures expenses == old(expenses) && incomes == old(incomes) && currency == old(currency)
    {
      goals := WithoutId(goals, id);
    }

    method SetCurrency(code: string)
      modifies this
      ensures currency == code
      ensures expenses == old(expenses) && incomes == old(incomes) && goals == old(goals)
    {
      currency := code;
    }
  }
}
