/** Ranking categories by spending: `Object.entries(totals).sort((a, b) =>
    b[1] - a[1])`, used for the top category on the dashboard, the
    assistant's answers and the expenses page's insights. JavaScript's sort
    is stable, so categories with equal amounts keep their insertion order. */
module Ranking {
  import opened Seqs
  import opened Store

  /** Inserts `x` into a ranking of entries that came after it: `x` goes
      before the first entry it is not below, so among equal amounts the
      earlier entry stays first. */
  function Insert(x: CategoryTotal, t: seq<CategoryTotal>): (r: seq<CategoryTotal>)
    ensures |r| == |t| + 1
    ensures multiset(r) == multiset(t) + multiset{x}
    ensures r[0] == x || (t != [] && r[0] == t[0])
  {
    if t == [] || x.amount >= t[0].amount then [x] + t
    else
      assert t == [t[0]] + t[1..];
      [t[0]] + Insert(x, t[1..])
  }

  /** The stable descending sort. */
  function SortDesc(s: seq<CategoryTotal>): (r: seq<CategoryTotal>)
    ensures |r| == |s|
    ensures multiset(r) == multiset(s)
  {
    if s == [] then []
    else
      assert s == [s[0]] + s[1..];
      Insert(s[0], SortDesc(s[1..]))
  }

  predicate Descending(t: seq<CategoryTotal>)
  {
    forall i, j :: 0 <= i < j < |t| ==> t[i].amount >= t[j].amount
  }

  /** A bound on every amount survives an insertion that respects it. */
  lemma {:induction false} InsertBelow(x: CategoryTotal, t: seq<CategoryTotal>, bound: real)
    requires x.amount <= bound
    requires forall i :: 0 <= i < |t| ==> t[i].amount <= bound
    ensures forall i :: 0 <= i < |t| + 1 ==> Insert(x, t)[i].amount <= bound
  {
    if t != [] && x.amount < t[0].amount {
      InsertBelow(x, t[1..], bound);
    }
  }

  lemma {:induction false} InsertDescending(x: CategoryTotal, t: seq<CategoryTotal>)
    requires Descending(t)
    ensures Descending(Insert(x, t))
  {
    if t != [] && x.amount < t[0].amount {
      InsertDescending(x, t[1..]);
      InsertBelow(x, t[1..], t[0].amount);
      var r := Insert(x, t);
      var rest := Insert(x, t[1..]);
      assert r == [t[0]] + rest;
      forall i, j | 0 <= i < j < |r| ensures r[i].amount >= r[j].amount {
        if i > 0 {
          assert r[i] == rest[i - 1] && r[j] == rest[j - 1];
        }
      }
    }
  }

  /** The ranking is in descending order of amount and holds exactly the
      entries it was given. */
  lemma {:induction false} SortDescRanks(s: seq<CategoryTotal>)
    ensures Descending(SortDesc(s))
    ensures multiset(SortDesc(s)) == multiset(s)
  {
    if s != [] {
      SortDescRanks(s[1..]);
      InsertDescending(s[0], SortDesc(s[1..]));
    }
  }

  /** An independent account of the winner: the position of the first entry
      whose amount no other entry exceeds. */
  function FirstMax(s: seq<CategoryTotal>): (k: nat)
    requires s != []
    ensures k < |s|
    ensures forall j :: 0 <= j < |s| ==> s[j].amount <= s[k].amount
    ensures forall j :: 0 <= j < k ==> s[j].amount < s[k].amount
  {
    if |s| == 1 then 0
    else
      var k := FirstMax(s[1..]) + 1;
      if s[0].amount >= s[k].amount then 0 else k
  }

  /** `sorted[0]` is the first category, in insertion order, of those with
      the largest amount. */
  lemma {:induction false} SortDescTop(s: seq<CategoryTotal>)
    requires s != []
    ensures SortDesc(s)[0] == s[FirstMax(s)]
  {
    if |s| > 1 {
      SortDescTop(s[1..]);
    }
  }

  /** The entries with amount exactly `v`: one group of ties. */
  function AmountIs(v: real): CategoryTotal -> bool
  {
    (e: CategoryTotal) => e.amount == v
  }

  /** Inserting `x` adds it to its own group of ties, ahead of that group,
      and leaves every other group as it was: the entries it passes are
      strictly larger. */
  lemma {:induction false} InsertTies(x: CategoryTotal, t: seq<CategoryTotal>, v: real)
    ensures Filter(Insert(x, t), AmountIs(v)) == Filter([x], AmountIs(v)) + Filter(t, AmountIs(v))
  {
    var p := AmountIs(v);
    if t == [] || x.amount >= t[0].amount {
      FilterConcat([x], t, p);
    } else {
      var a, u := t[0], t[1..];
      assert t == [a] + u;
      assert Insert(x, t) == [a] + Insert(x, u);
      FilterConcat([a], Insert(x, u), p);
      FilterConcat([a], u, p);
      InsertTies(x, u, v);
      FilterSingle(a, p);
      FilterSingle(x, p);
      assert Filter(Insert(x, t), p) == Filter([a], p) + (Filter([x], p) + Filter(u, p));
      assert Filter(t, p) == Filter([a], p) + Filter(u, p);
    }
  }

  /** Stability: within every group of equal amounts, the ranking keeps the
      entries' order of appearance. */
  lemma {:induction false} SortDescStable(s: seq<CategoryTotal>, v: real)
    ensures Filter(SortDesc(s), AmountIs(v)) == Filter(s, AmountIs(v))
  {
    if s != [] {
      SortDescStable(s[1..], v);
      InsertTies(s[0], SortDesc(s[1..]), v);
      assert s == [s[0]] + s[1..];
      FilterConcat([s[0]], s[1..], AmountIs(v));
    }
  }
}
