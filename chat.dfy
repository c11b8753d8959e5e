/** The assistant (src/pages/AIChat.jsx): a question is lower-cased and
    routed by the first group of keywords it contains; the reply is built
    from the month's figures. Sending a message appends it at once and the
    reply when its timer fires. */
module Chat {
  import opened Seqs
  import opened Text
  import opened Numbers
  import opened Store
  import opened Ranking

  // ---- routing ----

  datatype Intent = Biggest | Savings | Overview | Tips | IncomeInfo | BudgetStatus | Help

  const BIGGEST_WORDS: seq<string> := ["biggest", "top", "most"]
  const SAVINGS_WORDS: seq<string> := ["save", "saving"]
  const OVERVIEW_WORDS: seq<string> := ["analyz", "overview", "summary"]
  const TIPS_WORDS: seq<string> := ["suggest", "reduce", "tip", "advice"]
  const INCOME_WORDS: seq<string> := ["income"]
  const BUDGET_WORDS: seq<string> := ["budget", "goal"]

  /** `q.includes(w1) || q.includes(w2) || ...`. */
  function Mentions(q: string, words: seq<string>): (r: bool)
    ensures r <==> exists i :: 0 <= i < |words| && Contains(q, words[i])
  {
    if words == [] then false
    else if Contains(q, words[0]) then true
    else
      var rest := Mentions(q, words[1..]);
      assert forall i :: 1 <= i < |words| ==> words[i] == words[1..][i - 1];
      rest
  }

  /** The branch `generateResponse` takes: the first keyword group, in the
      order biggest, savings, overview, tips, income, budget, that occurs
      in the lower-cased question; the help text when none does. */
  function Classify(question: string): (r: Intent)
    ensures var q := Lower(question);
            && (r == Biggest <==> Mentions(q, BIGGEST_WORDS))
            && (r == Savings <==> !Mentions(q, BIGGEST_WORDS) && Mentions(q, SAVINGS_WORDS))
            && (r == Overview <==> !Mentions(q, BIGGEST_WORDS) && !Mentions(q, SAVINGS_WORDS)
                                   && Mentions(q, OVERVIEW_WORDS))
            && (r == Tips <==> !Mentions(q, BIGGEST_WORDS) && !Mentions(q, SAVINGS_WORDS)
                               && !Mentions(q, OVERVIEW_WORDS) && Mentions(q, TIPS_WORDS))
            && (r == IncomeInfo <==> !Mentions(q, BIGGEST_WORDS) && !Mentions(q, SAVINGS_WORDS)
                                     && !Mentions(q, OVERVIEW_WORDS) && !Mentions(q, TIPS_WORDS)
                                     && Mentions(q, INCOME_WORDS))
            && (r == BudgetStatus <==> !Mentions(q, BIGGEST_WORDS) && !Mentions(q, SAVINGS_WORDS)
                                       && !Mentions(q, OVERVIEW_WORDS) && !Mentions(q, TIPS_WORDS)
                                       && !Mentions(q, INCOME_WORDS) && Mentions(q, BUDGET_WORDS))
            && (r == Help <==> !Mentions(q, BIGGEST_WORDS) && !Mentions(q, SAVINGS_WORDS)
                               && !Mentions(q, OVERVIEW_WORDS) && !Mentions(q, TIPS_WORDS)
                               && !Mentions(q, INCOME_WORDS) && !Mentions(q, BUDGET_WORDS))
  {
    var q := Lower(question);
    if Mentions(q, BIGGEST_WORDS) then Biggest
    else if Mentions(q, SAVINGS_WORDS) then Savings
    else if Mentions(q, OVERVIEW_WORDS) then Overview
    else if Mentions(q, TIPS_WORDS) then Tips
    else if Mentions(q, INCOME_WORDS) then IncomeInfo
    else if Mentions(q, BUDGET_WORDS) then BudgetStatus
    else Help
  }

  /** Routing ignores letter case: a question and its lower-cased form go
      to the same branch. */
  lemma {:induction false} ClassifyIgnoresCase(question: string)
    ensures Classify(Lower(question)) == Classify(question)
  {
    LowerIdempotent(question);
  }

  /** Keywords match inside words: "stop" contains "top", so a question
      about stopping overspending gets the ranking of categories. */
  lemma StopMeansTop()
    ensures Classify("How do I stop overspending?") == Biggest
  {
    var q := Lower("How do I stop overspending?");
    assert q[10..13] == "top";
    assert OccursAt(q, BIGGEST_WORDS[1], 10);
  }

  /** The first suggestion chip asks for the ranking. */
  lemma FirstChipAsksBiggest()
    ensures Classify("What's my biggest expense?") == Biggest
  {
    var q := Lower("What's my biggest expense?");
    assert q[10..17] == "biggest";
    assert OccursAt(q, BIGGEST_WORDS[0], 10);
  }

  // ---- replies ----

  /** What the assistant reads from the store: all incomes, the month's
      totals and category spending, and the goals. */
  datatype ChatContext = ChatContext(
    incomes: seq<IncomeRec>, totalIncome: real, totalExpenses: real, balance: real,
    categorySpending: seq<CategoryTotal>, goals: seq<GoalRec>)

  datatype Advice = GreatJob | AimForTwenty | SpendingMoreThanEarned

  datatype Light = Red | Yellow | Green

  /** One line of the overview's budget status. */
  datatype StatusLine = StatusLine(category: string, spent: real, limit: real, pct: int, light: Light)

  datatype Standing = Remaining(amount: real) | OverBy(amount: real)

  /** One section of the budget-goals answer. */
  datatype GoalSection = GoalSection(category: string, limit: real, spent: real, pct: int, standing: Standing)

  datatype IncomeLine = IncomeLine(source: string, amount: real, date: string)

  /** Tip 1 of the money-saving tips: cut the top category by 15 percent. */
  datatype ReduceTip = ReduceTip(category: string, amount: real, saving: real)

  datatype Reply =
    | NoExpensesYet
    | Breakdown(ranking: seq<CategoryTotal>)
    | SavingsSummary(totalIncome: real, totalExpenses: real, balance: real, rate: real, advice: Advice)
    | FinancialOverview(totalIncome: real, totalExpenses: real, balance: real, rate: real,
                        top: seq<CategoryTotal>, status: seq<StatusLine>)
    | MoneyTips(reduce: Option<ReduceTip>)
    | IncomeSummary(totalIncome: real, sources: nat, lines: seq<IncomeLine>)
    | NoGoalsYet
    | GoalsReport(sections: seq<GoalSection>)
    | HelpText

  function AdviceFor(rate: real): Advice
  {
    if rate >= 20.0 then GreatJob else if rate > 0.0 then AimForTwenty else SpendingMoreThanEarned
  }

  /** The advice follows the unrounded savings rate with the thresholds
      moved by the rounding: praise from 19.95 percent, the 20-percent aim
      from 0.05 percent, and below that the overspending warning, which a
      saver keeping less than 0.05 percent of the income also gets. */
  lemma AdviceThresholds(totalIncome: real, balance: real)
    ensures var x := SavingsRate(totalIncome, balance);
            && (AdviceFor(ShownRate(totalIncome, balance)) == GreatJob <==> x >= 19.95)
            && (AdviceFor(ShownRate(totalIncome, balance)) == AimForTwenty <==> 0.05 <= x < 19.95)
            && (AdviceFor(ShownRate(totalIncome, balance)) == SpendingMoreThanEarned <==> x < 0.05)
  {
    var x := SavingsRate(totalIncome, balance);
    ToFixed1AtLeast(x, 200);
    if x >= 0.0 {
      RoundAtLeast(x * 10.0, 1);
    }
  }

  /** Saving 4 of an income of 10000 is reported as spending more than is
      earned: the rate 0.04 shows as 0.0. */
  lemma TinySurplusWarned()
    ensures AdviceFor(ShownRate(10000.0, 4.0)) == SpendingMoreThanEarned
  {
    AdviceThresholds(10000.0, 4.0);
  }

  /** The traffic light of a rounded percentage. */
  function LightOf(pct: int): Light
  {
    if pct >= 100 then Red else if pct >= 80 then Yellow else Green
  }

  predicate PositiveLimits(goals: seq<GoalRec>)
  {
    forall i :: 0 <= i < |goals| ==> goals[i].body.limit > 0.0
  }

  /** `Math.round((spent / g.limit) * 100)` with the category's spending,
      0 when it has none. */
  function RoundedPct(g: GoalRec, spending: seq<CategoryTotal>): int
    requires g.body.limit > 0.0
  {
    Round(Lookup(spending, g.body.category) / g.body.limit * 100.0)
  }

  /** The light turns red from 99.5 percent of the limit and yellow from
      79.5 percent, since the percentage is rounded first. */
  lemma {:induction false} LightThresholds(g: GoalRec, spending: seq<CategoryTotal>)
    requires g.body.limit > 0.0
    ensures var spent, limit := Lookup(spending, g.body.category), g.body.limit;
            && (LightOf(RoundedPct(g, spending)) == Red <==> spent * 100.0 >= 99.5 * limit)
            && (LightOf(RoundedPct(g, spending)) == Yellow <==> 79.5 * limit <= spent * 100.0 < 99.5 * limit)
  {
    var spent, limit := Lookup(spending, g.body.category), g.body.limit;
    RoundAtLeast(spent / limit * 100.0, 100);
    RoundAtLeast(spent / limit * 100.0, 80);
    PercentAtLeast(spent, limit, 99.5);
    PercentAtLeast(spent, limit, 79.5);
  }

  function StatusLines(goals: seq<GoalRec>, spending: seq<CategoryTotal>): (r: seq<StatusLine>)
    requires PositiveLimits(goals)
    ensures |r| == |goals|
    ensures forall i :: 0 <= i < |goals| ==>
              r[i] == StatusLine(goals[i].body.category, Lookup(spending, goals[i].body.category),
                                 goals[i].body.limit, RoundedPct(goals[i], spending),
                                 LightOf(RoundedPct(goals[i], spending)))
  {
    seq(|goals|, i requires 0 <= i < |goals| && PositiveLimits(goals) =>
      var g := goals[i];
      StatusLine(g.body.category, Lookup(spending, g.body.category), g.body.limit,
                 RoundedPct(g, spending), LightOf(RoundedPct(g, spending))))
  }

  /** `remaining >= 0 ? Remaining : Over by |remaining|`. */
  function StandingOf(limit: real, spent: real): (r: Standing)
    ensures r.Remaining? <==> spent <= limit
    ensures r.Remaining? ==> r.amount == limit - spent
    ensures r.OverBy? ==> r.amount == spent - limit > 0.0
  {
    var remaining := limit - spent;
    if remaining >= 0.0 then Remaining(remaining) else OverBy(-remaining)
  }

  function GoalSections(goals: seq<GoalRec>, spending: seq<CategoryTotal>): (r: seq<GoalSection>)
    requires PositiveLimits(goals)
    ensures |r| == |goals|
    ensures forall i :: 0 <= i < |goals| ==>
              r[i] == GoalSection(goals[i].body.category, goals[i].body.limit,
                                  Lookup(spending, goals[i].body.category), RoundedPct(goals[i], spending),
                                  StandingOf(goals[i].body.limit, Lookup(spending, goals[i].body.category)))
  {
    seq(|goals|, i requires 0 <= i < |goals| && PositiveLimits(goals) =>
      var g := goals[i];
      var spent := Lookup(spending, g.body.category);
      GoalSection(g.body.category, g.body.limit, spent, RoundedPct(g, spending), StandingOf(g.body.limit, spent)))
  }

  function IncomeLines(incomes: seq<IncomeRec>): (r: seq<IncomeLine>)
    ensures |r| == |incomes|
    ensures forall i :: 0 <= i < |incomes| ==>
              r[i] == IncomeLine(incomes[i].body.source, incomes[i].body.amount, incomes[i].body.date)
  {
    seq(|incomes|, i requires 0 <= i < |incomes| =>
      IncomeLine(incomes[i].body.source, incomes[i].body.amount, incomes[i].body.date))
  }

  /** The goals are divided by in the overview and the budget answer only. */
  predicate CanAnswer(question: string, ctx: ChatContext)
  {
    Classify(question) in {Overview, BudgetStatus} ==> PositiveLimits(ctx.goals)
  }

  /** `generateResponse`. */
  function Respond(question: string, ctx: ChatContext): (r: Reply)
    requires CanAnswer(question, ctx)
  {
    var ranking := SortDesc(ctx.categorySpending);
    var rate := ShownRate(ctx.totalIncome, ctx.balance);
    match Classify(question)
    case Biggest =>
      if |ranking| > 0 then Breakdown(ranking) else NoExpensesYet
    case Savings =>
      SavingsSummary(ctx.totalIncome, ctx.totalExpenses, ctx.balance, rate, AdviceFor(rate))
    case Overview =>
      FinancialOverview(ctx.totalIncome, ctx.totalExpenses, ctx.balance, rate,
                        Take(ranking, 5), StatusLines(ctx.goals, ctx.categorySpending))
    case Tips =>
      MoneyTips(if |ranking| > 0 then Some(ReduceTip(ranking[0].category, ranking[0].amount, ranking[0].amount * 0.15))
                else None)
    case IncomeInfo =>
      IncomeSummary(ctx.totalIncome, |ctx.incomes|, IncomeLines(ctx.incomes))
    case BudgetStatus =>
      if |ctx.goals| == 0 then NoGoalsYet else GoalsReport(GoalSections(ctx.goals, ctx.categorySpending))
    case Help => HelpText
  }

  /** The ranking answer lists every category once, largest first, and
      leads with the first of the largest in order of appearance. */
  lemma {:induction false} BiggestAnswer(question: string, ctx: ChatContext)
    requires Classify(question) == Biggest
    ensures ctx.categorySpending == [] <==> Respond(question, ctx) == NoExpensesYet
    ensures ctx.categorySpending != [] ==>
              && Respond(question, ctx).Breakdown?
              && Descending(Respond(question, ctx).ranking)
              && multiset(Respond(question, ctx).ranking) == multiset(ctx.categorySpending)
              && Respond(question, ctx).ranking[0] == ctx.categorySpending[FirstMax(ctx.categorySpending)]
  {
    if ctx.categorySpending != [] {
      SortDescRanks(ctx.categorySpending);
      SortDescTop(ctx.categorySpending);
    }
  }

  /** The overview reports the month's figures and the rate shown to one
      decimal, lists the first five entries of the ranking (so none it
      leaves out spent more than one it lists), and gives one status line
      per goal with that goal's category, spending and limit. */
  lemma {:induction false} OverviewTopFive(question: string, ctx: ChatContext)
    requires Classify(question) == Overview && PositiveLimits(ctx.goals)
    ensures var r := Respond(question, ctx);
            var ranking := SortDesc(ctx.categorySpending);
            && r.FinancialOverview?
            && r.totalIncome == ctx.totalIncome && r.totalExpenses == ctx.totalExpenses && r.balance == ctx.balance
            && -0.05 <= r.rate - SavingsRate(ctx.totalIncome, ctx.balance) <= 0.05
            && |r.top| == (if |ctx.categorySpending| < 5 then |ctx.categorySpending| else 5)
            && (forall i :: 0 <= i < |r.top| ==> r.top[i] == ranking[i])
            && (forall i, j :: 0 <= i < |r.top| <= j < |ranking| ==> r.top[i].amount >= ranking[j].amount)
            && r.status == StatusLines(ctx.goals, ctx.categorySpending)
            && |r.status| == |ctx.goals|
            && (forall i :: 0 <= i < |ctx.goals| ==>
                  && r.status[i].category == ctx.goals[i].body.category
                  && r.status[i].spent == Lookup(ctx.categorySpending, ctx.goals[i].body.category)
                  && r.status[i].limit == ctx.goals[i].body.limit)
  {
    SortDescRanks(ctx.categorySpending);
  }

  /** The first tip appears exactly when something was spent, and proposes
      15 percent of the top category. */
  lemma {:induction false} TipsAnswer(question: string, ctx: ChatContext)
    requires Classify(question) == Tips
    ensures var r := Respond(question, ctx);
            && r.MoneyTips?
            && (r.reduce.Some? <==> ctx.categorySpending != [])
            && (r.reduce.Some? ==>
                  && r.reduce.value.category == ctx.categorySpending[FirstMax(ctx.categorySpending)].category
                  && r.reduce.value.amount == ctx.categorySpending[FirstMax(ctx.categorySpending)].amount
                  && r.reduce.value.saving == r.reduce.value.amount * 0.15)
  {
    if ctx.categorySpending != [] {
      SortDescTop(ctx.categorySpending);
    }
  }

  /** The budget answer has one section per goal, with the goal's category,
      limit and month spending, each telling what is left
      or by how much the goal is exceeded. */
  lemma {:induction false} BudgetAnswer(question: string, ctx: ChatContext)
    requires Classify(question) == BudgetStatus && PositiveLimits(ctx.goals)
    ensures ctx.goals == [] <==> Respond(question, ctx) == NoGoalsYet
    ensures ctx.goals != [] ==>
              && Respond(question, ctx).GoalsReport?
              && |Respond(question, ctx).sections| == |ctx.goals|
              && forall i :: 0 <= i < |ctx.goals| ==>
                   var s := Respond(question, ctx).sections[i];
                   && s.category == ctx.goals[i].body.category
                   && s.limit == ctx.goals[i].body.limit
                   && s.spent == Lookup(ctx.categorySpending, ctx.goals[i].body.category)
                   && (s.standing.OverBy? <==> s.spent > ctx.goals[i].body.limit)
  {
  }

  /** The income answer counts and lists every stored income, of any
      month, next to the month's income total. */
  lemma {:induction false} IncomeAnswer(question: string, ctx: ChatContext)
    requires Classify(question) == IncomeInfo
    ensures var r := Respond(question, ctx);
            && r.IncomeSummary?
            && r.totalIncome == ctx.totalIncome
            && r.sources == |ctx.incomes| == |r.lines|
            && forall i :: 0 <= i < |ctx.incomes| ==> r.lines[i].amount == ctx.incomes[i].body.amount
  {
  }

  /** The savings answer reports the month's figures and the rate shown to
      one decimal, with the advice the exact rate earns: praise from 19.95
      percent, the aim-for-20 advice from 0.05 percent, the warning below. */
  lemma {:induction false} SavingsAnswer(question: string, ctx: ChatContext)
    requires Classify(question) == Savings
    ensures var r, x := Respond(question, ctx), SavingsRate(ctx.totalIncome, ctx.balance);
            && r.SavingsSummary?
            && r.totalIncome == ctx.totalIncome && r.totalExpenses == ctx.totalExpenses && r.balance == ctx.balance
            && -0.05 <= r.rate - x <= 0.05
            && (r.advice == GreatJob <==> x >= 19.95)
            && (r.advice == AimForTwenty <==> 0.05 <= x < 19.95)
            && (r.advice == SpendingMoreThanEarned <==> x < 0.05)
  {
    AdviceThresholds(ctx.totalIncome, ctx.balance);
  }

  /** The help text is the answer exactly to a question that mentions none
      of the keywords, whatever its letter case. */
  lemma {:induction false} HelpAnswer(question: string, ctx: ChatContext)
    requires CanAnswer(question, ctx)
    ensures var q := Lower(question);
            Respond(question, ctx) == HelpText <==>
              && !Mentions(q, BIGGEST_WORDS) && !Mentions(q, SAVINGS_WORDS) && !Mentions(q, OVERVIEW_WORDS)
              && !Mentions(q, TIPS_WORDS) && !Mentions(q, INCOME_WORDS) && !Mentions(q, BUDGET_WORDS)
  {
  }

  // ---- the conversation ----

  datatype Message = Greeting | UserSaid(text: string) | AssistantSaid(reply: Reply)

  /** `text || input`: a chip's text, or what was typed. */
  function MessageOf(text: string, input: string): string
  {
    if text != "" then text else input
  }

  class ChatSession {
    var messages: seq<Message>
    var input: string
    var isTyping: bool
    /** Replies computed when their question was sent, waiting for their
        timers; the timers have random delays, so any of them may fire
        next. */
    var pending: seq<Reply>

    constructor ()
      ensures messages == [Greeting] && input == "" && !isTyping && pending == []
    {
      messages := [Greeting];
      input := "";
      isTyping := false;
      pending := [];
    }

    method Type(text: string)
      modifies this
      ensures input == text
      ensures messages == old(messages) && isTyping == old(isTyping) && pending == old(pending)
    {
      input := text;
    }

    /** `handleSend`: a blank message is ignored; otherwise it is shown at
        once, the input is cleared, and its reply, computed from the figures
        of this moment, waits for its timer. */
    method Send(text: string, ctx: ChatContext) returns (sent: bool)
      requires CanAnswer(MessageOf(text, input), ctx)
      modifies this
      ensures var msg := MessageOf(text, old(input));
              if IsBlank(msg) then
                !sent && messages == old(messages) && input == old(input)
                && isTyping == old(isTyping) && pending == old(pending)
              else
                sent && messages == old(messages) + [UserSaid(msg)] && input == "" && isTyping
                && pending == old(pending) + [Respond(msg, ctx)]
    {
      var msg := MessageOf(text, input);
      if IsBlank(msg) {
        return false;
      }
      messages := messages + [UserSaid(msg)];
      input := "";
      isTyping := true;
      pending := pending + [Respond(msg, ctx)];
      sent := true;
    }

    /** A timer fires: its reply is shown and the typing indicator goes off,
        even when other replies are still waiting. */
    method Deliver(k: nat)
      requires k < |pending|
      modifies this
      ensures messages == old(messages) + [AssistantSaid(old(pending)[k])]
      ensures pending == old(pending)[..k] + old(pending)[k + 1..]
      ensures !isTyping && input == old(input)
    {
      messages := messages + [AssistantSaid(pending[k])];
      pending := pending[..k] + pending[k + 1..];
      isTyping := false;
    }
  }
}
