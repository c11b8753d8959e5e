/** The budget goals page (src/pages/BudgetGoals.jsx): setting a monthly
    limit per category, and the progress card shown for each goal. */
module GoalsPage {
  import opened Seqs
  import opened Forms
  import opened Store
  import opened Numbers
  import Categories

  /** `budgetGoals.find(g => g.category === category)`. */
  function GoalFor(goals: seq<GoalRec>, category: string): (r: Option<nat>)
    ensures r.Some? ==> r.value < |goals| && goals[r.value].body.category == category
    ensures r.Some? ==> forall j :: 0 <= j < r.value ==> goals[j].body.category != category
    ensures r.None? <==> forall j :: 0 <= j < |goals| ==> goals[j].body.category != category
  {
    if goals == [] then None
    else if goals[0].body.category == category then Some(0)
    else match GoalFor(goals[1..], category)
      case None => None
      case Some(k) => Some(k + 1)
  }

  /** What submitting the goal dialog does to the goal list: a category that
      already has a goal gets the new limit, any other gets a new goal in the
      store's currency at the end of the list. */
  function Upsert(goals: seq<GoalRec>, category: string, limit: real, currency: string, freshId: Id)
    : (r: seq<GoalRec>)
  {
    match GoalFor(goals, category)
    case Some(k) => UpdatedById(goals, goals[k].id, (d: GoalData) => MergeGoal(d, GoalPatch(Some(limit))))
    case None => goals + [Rec(freshId, GoalData(category, limit, currency))]
  }

  predicate DistinctCategories(goals: seq<GoalRec>)
  {
    forall i, j :: 0 <= i < j < |goals| ==> goals[i].body.category != goals[j].body.category
  }

  predicate DistinctIds(goals: seq<GoalRec>)
  {
    forall i, j :: 0 <= i < j < |goals| ==> goals[i].id != goals[j].id
  }

  /** The upsert keeps every goal's category and position, sets the limit
      of the category's goal, and adds a goal only when the category had
      none. Goals of other categories keep their limits as long as ids are
      distinct: the update goes by id, not by category. */
  lemma {:induction false} UpsertShape(goals: seq<GoalRec>, category: string, limit: real, currency: string, freshId: Id)
    ensures var r := Upsert(goals, category, limit, currency, freshId);
            && |r| == (if GoalFor(goals, category).Some? then |goals| else |goals| + 1)
            && (forall i :: 0 <= i < |goals| ==> r[i].body.category == goals[i].body.category)
            && (GoalFor(goals, category).Some? ==> r[GoalFor(goals, category).value].body.limit == limit)
            && (GoalFor(goals, category).None? ==> r[|goals|] == Rec(freshId, GoalData(category, limit, currency)))
            && (DistinctIds(goals) ==>
                  forall i :: 0 <= i < |goals| && goals[i].body.category != category ==> r[i] == goals[i])
  {
    match GoalFor(goals, category)
    case Some(k) =>
      var f := (d: GoalData) => MergeGoal(d, GoalPatch(Some(limit)));
      var r := UpdatedById(goals, goals[k].id, f);
      forall i | 0 <= i < |goals| ensures r[i].body.category == goals[i].body.category {
        if goals[i].id == goals[k].id {
          assert r[i].body == f(goals[i].body);
        }
      }
      assert r[k].body == f(goals[k].body);
      if DistinctIds(goals) {
        forall i | 0 <= i < |goals| && goals[i].body.category != category ensures r[i] == goals[i] {
          assert i != k;
        }
      }
    case None =>
  }

  /** The first goal of a category is the one `find` returns. */
  lemma {:induction false} GoalForFirst(goals: seq<GoalRec>, category: string, k: nat)
    requires k < |goals| && goals[k].body.category == category
    requires forall j :: 0 <= j < k ==> goals[j].body.category != category
    ensures GoalFor(goals, category) == Some(k)
  {
  }

  /** After the upsert the category's goal carries the submitted limit. */
  lemma {:induction false} UpsertSetsLimit(goals: seq<GoalRec>, category: string, limit: real, currency: string, freshId: Id)
    ensures var r := Upsert(goals, category, limit, currency, freshId);
            GoalFor(r, category).Some? && r[GoalFor(r, category).value].body.limit == limit
  {
    var r := Upsert(goals, category, limit, currency, freshId);
    UpsertShape(goals, category, limit, currency, freshId);
    var found := GoalFor(goals, category);
    var k := if found.Some? then found.value else |goals|;
    forall j | 0 <= j < k ensures r[j].body.category != category {
      assert r[j].body.category == goals[j].body.category;
    }
    GoalForFirst(r, category, k);
  }

  /** A list with one goal per category keeps one goal per category. */
  lemma {:induction false} UpsertKeepsDistinct(goals: seq<GoalRec>, category: string, limit: real, currency: string, freshId: Id)
    requires DistinctCategories(goals)
    ensures DistinctCategories(Upsert(goals, category, limit, currency, freshId))
  {
    UpsertShape(goals, category, limit, currency, freshId);
  }

  datatype GoalForm = GoalForm(category: string, limit: Field)

  datatype GoalSubmitted = SetBudgetLimitFirst | GoalUpdated | GoalAdded

  /** `handleSubmit`: an empty limit is refused and nothing changes;
      otherwise the goal list becomes the upsert of the form. */
  method SubmitGoal(store: BudgetStore, form: GoalForm, freshId: Id) returns (r: GoalSubmitted)
    modifies store
    ensures form.limit.Empty? ==> r == SetBudgetLimitFirst && store.goals == old(store.goals)
    ensures form.limit.Entered? ==>
              && store.goals == Upsert(old(store.goals), form.category, form.limit.value, old(store.currency), freshId)
              && (r == GoalUpdated <==> GoalFor(old(store.goals), form.category).Some?)
              && r != SetBudgetLimitFirst
    ensures store.expenses == old(store.expenses) && store.incomes == old(store.incomes)
    ensures store.currency == old(store.currency)
  {
    if form.limit.Empty? {
      return SetBudgetLimitFirst;
    }
    var existing := GoalFor(store.goals, form.category);
    if existing.Some? {
      store.UpdateBudgetGoal(store.goals[existing.value].id, GoalPatch(Some(form.limit.value)));
      r := GoalUpdated;
    } else {
      store.AddBudgetGoal(GoalData(form.category, form.limit.value, store.currency), freshId);
      r := GoalAdded;
    }
  }

  lemma {:induction false} FilterMembership(s: seq<string>, p: string -> bool)
    ensures forall c :: c in Filter(s, p) <==> c in s && p(c)
  {
    if s != [] {
      FilterMembership(s[1..], p);
      assert forall c :: c in s <==> c == s[0] || c in s[1..];
    }
  }

  /** The categories that have no goal yet, in the table's order; when there
      are none the add button is disabled. */
  function AvailableCategories(goals: seq<GoalRec>): (r: seq<string>)
    ensures forall c :: c in r <==> c in Categories.CATEGORIES && GoalFor(goals, c).None?
    ensures |r| == 0 <==> forall c :: c in Categories.CATEGORIES ==> GoalFor(goals, c).Some?
  {
    var p := (c: string) => GoalFor(goals, c).None?;
    FilterMembership(Categories.CATEGORIES, p);
    var r := Filter(Categories.CATEGORIES, p);
    assert |r| != 0 ==> r[0] in r;
    r
  }

  datatype Status = Over | Near | OnTrack

  /** The caption under the bar: how much is left, or by how much the goal
      is exceeded. */
  datatype Caption = Left(amount: real) | OverBy(amount: real)

  datatype Card = Card(spent: real, pct: real, status: Status, caption: Caption)

  function Min(a: real, b: real): real
  {
    if a <= b then a else b
  }

  /** The bar's width `min(spent / limit * 100, 100)`: full exactly when the
      limit is reached, at least 80 exactly from 80 percent of the limit. */
  function Pct(spent: real, limit: real): (r: real)
    requires limit > 0.0
    ensures r <= 100.0
    ensures r == 100.0 <==> spent >= limit
    ensures r >= 80.0 <==> spent >= 0.8 * limit
    ensures spent >= 0.0 ==> r >= 0.0
    ensures spent <= limit ==> r * limit == 100.0 * spent
  {
    PercentAtLeast(spent, limit, 100.0);
    PercentAtLeast(spent, limit, 80.0);
    PercentAtLeast(spent, limit, 0.0);
    Min(spent / limit * 100.0, 100.0)
  }

  /** The card of one goal: what its category spent this month (0 without an
      entry), the bar's width, over when spent exceeds the limit, near from
      80 percent on, and the caption. */
  function GoalCard(goal: GoalRec, spending: seq<CategoryTotal>): (r: Card)
    requires goal.body.limit > 0.0
    ensures r.spent == Lookup(spending, goal.body.category)
    ensures r.pct == Pct(r.spent, goal.body.limit)
    ensures r.status == Over <==> r.spent > goal.body.limit
    ensures r.status == Near <==> 0.8 * goal.body.limit <= r.spent <= goal.body.limit
    ensures r.caption.OverBy? <==> r.status == Over
    ensures r.caption.OverBy? ==> r.caption.amount == r.spent - goal.body.limit > 0.0
    ensures r.caption.Left? ==> r.caption.amount == goal.body.limit - r.spent >= 0.0
  {
    var limit := goal.body.limit;
    var spent := Lookup(spending, goal.body.category);
    var pct := Pct(spent, limit);
    var remaining := limit - spent;
    var isOver := spent > limit;
    var isNear := pct >= 80.0 && !isOver;
    Card(spent, pct,
         if isOver then Over else if isNear then Near else OnTrack,
         if isOver then OverBy(if remaining < 0.0 then -remaining else remaining) else Left(remaining))
  }

  /** At exactly the limit a goal shows as near, not over: the bar is full
      but the check is strict. */
  lemma {:induction false} AtLimitIsNear(goal: GoalRec, spending: seq<CategoryTotal>)
    requires goal.body.limit > 0.0
    requires Lookup(spending, goal.body.category) == goal.body.limit
    ensures GoalCard(goal, spending).status == Near
    ensures GoalCard(goal, spending).pct == 100.0
  {
  }
}
