/** The income page (src/pages/Income.jsx): the add-income dialog, the
    count of the month's income sources and the colour and icon each listed
    income is drawn with. */
module IncomePage {
  import opened Seqs
  import opened Text
  import opened Forms
  import opened Store

  /** The colours of the four named sources. */
  const SOURCE_COLORS: map<string, string> := map[
    "Salary" := "#5A8FE6",
    "Freelance" := "#8B6FD8",
    "Investments" := "#E6943A",
    "Other" := "#2DB5A3"
  ]

  /** The palette any other source cycles through, by list position. */
  const FALLBACK_COLORS: seq<string> := ["#E8705A", "#34B87A", "#D85A93", "#64B5CD", "#A3C96B"]

  /** `getColor(source, idx)`: a named source's own colour, otherwise the
      fallback colour at the position modulo the palette's length. */
  function ColorFor(source: string, idx: nat): (r: string)
    ensures source in SOURCE_COLORS ==> r == SOURCE_COLORS[source]
    ensures source !in SOURCE_COLORS ==> r == FALLBACK_COLORS[idx % 5]
    ensures r != ""
  {
    if source in SOURCE_COLORS then SOURCE_COLORS[source]
    else FALLBACK_COLORS[idx % |FALLBACK_COLORS|]
  }

  /** A named source's colour does not depend on where it is listed; any
      other source gets the same colour five places further down, and a
      different one at each of the four positions in between. */
  lemma ColorCycle(source: string, idx: nat, k: nat)
    requires 0 < k
    ensures source in SOURCE_COLORS ==> ColorFor(source, idx) == ColorFor(source, idx + k)
    ensures source !in SOURCE_COLORS ==>
              (ColorFor(source, idx) == ColorFor(source, idx + k) <==> k % 5 == 0)
  {
    if source !in SOURCE_COLORS {
      var a, b := idx % 5, (idx + k) % 5;
      assert idx == 5 * (idx / 5) + a;
      assert k == 5 * (k / 5) + k % 5;
      assert idx + k == 5 * (idx / 5 + k / 5) + (a + k % 5);
      assert b == (a + k % 5) % 5;
      FallbackDistinct();
    }
  }

  /** The fallback palette holds five different colours, none of them a
      named source's colour. */
  lemma FallbackDistinct()
    ensures forall i, j :: 0 <= i < j < |FALLBACK_COLORS| ==> FALLBACK_COLORS[i] != FALLBACK_COLORS[j]
    ensures forall i :: 0 <= i < |FALLBACK_COLORS| ==> FALLBACK_COLORS[i] !in SOURCE_COLORS.Values
  {
  }

  datatype SourceIcon = Briefcase | BarChart | TrendingUp | Wallet

  /** `SOURCE_ICONS[source] || SOURCE_ICONS.Other`: the wallet for every
      source but the three named ones. */
  function IconFor(source: string): (r: SourceIcon)
    ensures r == Briefcase <==> source == "Salary"
    ensures r == BarChart <==> source == "Freelance"
    ensures r == TrendingUp <==> source == "Investments"
    ensures r == Wallet <==> source !in {"Salary", "Freelance", "Investments"}
  {
    if source == "Salary" then Briefcase
    else if source == "Freelance" then BarChart
    else if source == "Investments" then TrendingUp
    else Wallet
  }

  /** The month the "sources this month" caption counts; it is fixed, not
      the clock's month. */
  const CAPTION_MONTH: string := "2026-02"

  /** The number of incomes, of any month's store, dated in February 2026. */
  function SourcesThisMonth(incomes: seq<IncomeRec>): (r: nat)
    ensures r <= |incomes|
    ensures r == |IncomesIn(incomes, CAPTION_MONTH)|
  {
    |IncomesIn(incomes, CAPTION_MONTH)|
  }

  /** Adding an income raises the count by one exactly when it is dated in
      February 2026. The count is of incomes, not of distinct sources. */
  lemma {:induction false} SourcesAfterAdd(x: IncomeRec, incomes: seq<IncomeRec>)
    ensures SourcesThisMonth([x] + incomes) ==
              SourcesThisMonth(incomes) + (if StartsWith(x.body.date, CAPTION_MONTH) then 1 else 0)
  {
    var p := (y: IncomeRec) => StartsWith(y.body.date, CAPTION_MONTH);
    FilterConcat([x], incomes, p);
    if !p(x) {
      assert Filter([x], p) == [];
    }
  }

  /** The dialog's fields; the source is free text. */
  datatype IncomeForm = IncomeForm(amount: Field, source: string, date: string, note: string)

  function BlankForm(today: string): (r: IncomeForm)
    ensures r.amount.Empty? && r.source == "" && r.note == "" && r.date == today
  {
    IncomeForm(Empty, "", today, "")
  }

  /** The check of `handleSubmit`: an amount and a source; date and note
      may be anything. */
  predicate Complete(f: IncomeForm)
  {
    f.amount.Entered? && f.source != ""
  }

  datatype IncomeSubmitted = FillRequiredFields | IncomeAdded

  class IncomeDialog {
    var form: IncomeForm
    var isOpen: bool

    constructor (today: string)
      ensures form == BlankForm(today) && !isOpen
    {
      form := BlankForm(today);
      isOpen := false;
    }

    /** The dialog's open/close handler (the trigger button opens it; the
        close button and the backdrop close it); the form is kept. */
    method SetOpen(o: bool)
      modifies this
      ensures isOpen == o && form == old(form)
    {
      isOpen := o;
    }

    /** A change to one of the inputs. */
    method Edit(f: IncomeForm)
      modifies this
      ensures form == f && isOpen == old(isOpen)
    {
      form := f;
    }

    /** `handleSubmit`: a form without an amount or a source changes
        nothing; otherwise the income is added in the store's currency and
        the dialog closes with a blank form dated today. */
    method Submit(store: BudgetStore, today: string, freshId: Id) returns (r: IncomeSubmitted)
      modifies this, store
      ensures !Complete(old(form)) ==>
                && r == FillRequiredFields
                && form == old(form) && isOpen == old(isOpen)
                && store.incomes == old(store.incomes)
      ensures Complete(old(form)) ==>
                && r == IncomeAdded
                && store.incomes == [Rec(freshId, IncomeData(old(form).amount.value, old(form).source,
                                                            old(form).date, old(form).note,
                                                            old(store.currency)))] + old(store.incomes)
                && form == BlankForm(today) && !isOpen
      ensures store.expenses == old(store.expenses) && store.goals == old(store.goals)
      ensures store.currency == old(store.currency)
    {
      if !Complete(form) {
        return FillRequiredFields;
      }
      store.AddIncome(IncomeData(form.amount.value, form.source, form.date, form.note, store.currency), freshId);
      r := IncomeAdded;
      isOpen := false;
      form := BlankForm(today);
    }
  }
}
