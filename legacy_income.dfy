/** The earlier income page (Bugget_planer-main/src/views/pages/Income.jsx):
    a list of incomes kept only in the page, with a running total that each
    add bumps by the amount it appends. */
module LegacyIncome {
  import opened Forms

  /** An appended income; `id` is the millisecond clock at the add. */
  datatype IncomeItem = IncomeItem(source: string, amount: real, date: string, id: int)

  datatype IncomeForm = IncomeForm(source: string, amount: Field, date: string)

  function BlankForm(today: string): (r: IncomeForm)
    ensures r.source == "" && r.amount.Empty? && r.date == today
  {
    IncomeForm("", Empty, today)
  }

  /** The check of `handleAddIncome`: a source and an amount. */
  predicate Complete(f: IncomeForm)
  {
    f.source != "" && f.amount.Entered?
  }

  /** The sum of the listed amounts. */
  function Total(items: seq<IncomeItem>): real
  {
    if items == [] then 0.0 else Total(items[..|items| - 1]) + items[|items| - 1].amount
  }

  datatype AddResult = FillAllFields | Added(item: IncomeItem)

  class IncomePage {
    var incomeList: seq<IncomeItem>
    var formData: IncomeForm
    var loading: bool
    var totalIncome: real

    /** The running total is the sum of the list. */
    ghost predicate Valid()
      reads this
    {
      totalIncome == Total(incomeList)
    }

    constructor (today: string)
      ensures Valid()
      ensures incomeList == [] && totalIncome == 0.0 && formData == BlankForm(today) && !loading
    {
      incomeList := [];
      formData := BlankForm(today);
      loading := false;
      totalIncome := 0.0;
    }

    /** A change to one of the inputs. */
    method Edit(f: IncomeForm)
      modifies this
      ensures formData == f
      ensures incomeList == old(incomeList) && totalIncome == old(totalIncome) && loading == old(loading)
    {
      formData := f;
    }

    /** `handleAddIncome`: an incomplete form changes nothing; otherwise one
        item with the parsed amount is appended, the total grows by that
        amount, the form is cleared and the page is no longer loading. */
    method AddIncome(now: int, today: string) returns (r: AddResult)
      requires Valid()
      modifies this
      ensures Valid()
      ensures !Complete(old(formData)) ==>
                && r == FillAllFields
                && incomeList == old(incomeList) && totalIncome == old(totalIncome)
                && formData == old(formData) && loading == old(loading)
      ensures Complete(old(formData)) ==>
                && r == Added(IncomeItem(old(formData).source, old(formData).amount.value, old(formData).date, now))
                && incomeList == old(incomeList) + [r.item]
                && totalIncome == old(totalIncome) + r.item.amount
                && formData == BlankForm(today)
                && !loading
    {
      if !Complete(formData) {
        return FillAllFields;
      }
      loading := true;
      var item := IncomeItem(formData.source, formData.amount.value, formData.date, now);
      assert (incomeList + [item])[..|incomeList|] == incomeList;
      incomeList := incomeList + [item];
      totalIncome := totalIncome + formData.amount.value;
      formData := BlankForm(today);
      loading := false;
      r := Added(item);
    }
  }

  /** Totals of concatenated lists add up: the total after several adds is
      the total before plus the sum of what they appended. */
  lemma {:induction false} TotalConcat(a: seq<IncomeItem>, b: seq<IncomeItem>)
    ensures Total(a + b) == Total(a) + Total(b)
  {
    if b == [] {
      assert a + b == a;
    } else {
      TotalConcat(a, b[..|b| - 1]);
      assert (a + b)[..|a + b| - 1] == a + b[..|b| - 1];
    }
  }

  /** With non-negative amounts the total is never negative. */
  lemma {:induction false} TotalNonNegative(items: seq<IncomeItem>)
    requires forall i :: 0 <= i < |items| ==> items[i].amount >= 0.0
    ensures Total(items) >= 0.0
  {
    if items != [] {
      TotalNonNegative(items[..|items| - 1]);
    }
  }

  /** Adding an item with a non-negative amount never lowers the total. */
  lemma TotalNeverFalls(items: seq<IncomeItem>, x: IncomeItem)
    requires x.amount >= 0.0
    ensures Total(items) <= Total(items + [x])
  {
    TotalConcat(items, [x]);
    assert [x][..0] == [];
  }
}
