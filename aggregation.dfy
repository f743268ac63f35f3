/**
 * The budget tracker's records and the values derived from them on every
 * render: total spend, monthly budget, share of the budget used, spend per
 * category and each category's share of total spend.
 */
module Aggregation {
  import opened JsNumbers

  /** A spending category; `icon` and `color` are opaque to the logic. */
  datatype Category = Category(id: string, name: string, icon: string, color: string, limit: real)

  /** A logged expense; `date` is a timestamp in milliseconds. */
  datatype Expense = Expense(id: string, categoryId: string, amount: real, description: string, date: int)

  /** `xs.reduce((sum, x) => sum + f(x), 0)`: a left fold from 0. */
  function Sum<T>(xs: seq<T>, f: T -> real): real
  {
    if xs == [] then 0.0 else Sum(xs[..|xs| - 1], f) + f(xs[|xs| - 1])
  }

  function AmountOf(e: Expense): real { e.amount }

  function LimitOf(c: Category): real { c.limit }

  /** Sum of every expense amount. */
  function TotalSpent(es: seq<Expense>): real { Sum(es, AmountOf) }

  /** Sum of every category limit. */
  function MonthlyBudget(cs: seq<Category>): real { Sum(cs, LimitOf) }

  /**
   * `(totalSpent / monthlyBudget) * 100`, unguarded: a zero budget gives
   * NaN or an infinity, never a number.
   */
  function BudgetUsed(cs: seq<Category>, es: seq<Expense>): (r: Num)
    ensures r.Finite? <==> MonthlyBudget(cs) != 0.0
    ensures r.Finite? ==> r.value * MonthlyBudget(cs) == 100.0 * TotalSpent(es)
    ensures r.NaN? <==> MonthlyBudget(cs) == 0.0 && TotalSpent(es) == 0.0
  {
    Percent(TotalSpent(es), MonthlyBudget(cs))
  }

  /** `expenses.filter(exp => exp.categoryId === id)`, order kept. */
  function ExpensesOf(es: seq<Expense>, id: string): (r: seq<Expense>)
    ensures |r| <= |es|
    ensures forall e :: e in r <==> e in es && e.categoryId == id
  {
    if es == [] then []
    else (if es[0].categoryId == id then [es[0]] else []) + ExpensesOf(es[1..], id)
  }

  /**
   * The filter keeps each matching expense as often as it occurs and drops
   * every other one.
   */
  lemma {:induction false} ExpensesOfCounts(es: seq<Expense>, id: string)
    ensures forall e :: multiset(ExpensesOf(es, id))[e] == if e.categoryId == id then multiset(es)[e] else 0
    decreases |es|
  {
    if es != [] {
      ExpensesOfCounts(es[1..], id);
      assert es == [es[0]] + es[1..];
    }
  }

  /** `getCategoryExpenses(id)`: the filter followed by the sum. */
  function CategorySpend(es: seq<Expense>, id: string): (r: real)
    ensures (forall e | e in es :: e.categoryId != id) ==> r == 0.0
  {
    var mine := ExpensesOf(es, id);
    assert (forall e | e in es :: e.categoryId != id) ==> mine == [] by {
      if mine != [] { assert mine[0] in mine; }
    }
    Sum(mine, AmountOf)
  }

  /** The amount of an expense if it is booked against `id`, else 0. */
  function MaskedAmount(id: string): Expense -> real
  {
    (e: Expense) => if e.categoryId == id then e.amount else 0.0
  }

  /** The spend of each category, as a function of the category. */
  function SpendOf(es: seq<Expense>): Category -> real
  {
    (c: Category) => CategorySpend(es, c.id)
  }

  /**
   * The share of total spend booked against `id`, in percent:
   * `totalSpent > 0 ? (spent / totalSpent) * 100 : 0`.
   */
  function DistributionPercent(es: seq<Expense>, id: string): (r: real)
    ensures TotalSpent(es) > 0.0 ==> r * TotalSpent(es) == 100.0 * CategorySpend(es, id)
    ensures TotalSpent(es) <= 0.0 ==> r == 0.0
  {
    var total := TotalSpent(es);
    if total > 0.0 then CategorySpend(es, id) / total * 100.0 else 0.0
  }

  /** The distribution share of each category, as a function of the category. */
  function ShareOf(es: seq<Expense>): Category -> real
  {
    (c: Category) => DistributionPercent(es, c.id)
  }

  /** No two categories share an id. */
  predicate DistinctIds(cs: seq<Category>)
  {
    forall i, j :: 0 <= i < j < |cs| ==> cs[i].id != cs[j].id
  }

  /** Some category carries `id`. */
  predicate HasCategory(cs: seq<Category>, id: string)
  {
    exists i :: 0 <= i < |cs| && cs[i].id == id
  }

  /** Every expense is booked against a category that exists. */
  predicate NoDanglingExpenses(cs: seq<Category>, es: seq<Expense>)
  {
    forall e | e in es :: HasCategory(cs, e.categoryId)
  }

  predicate NonNegativeAmounts(es: seq<Expense>)
  {
    forall e | e in es :: e.amount >= 0.0
  }

  // ---------------------------------------------------------------------
  // Sums

  lemma {:induction false} SumAppend<T>(xs: seq<T>, ys: seq<T>, f: T -> real)
    ensures Sum(xs + ys, f) == Sum(xs, f) + Sum(ys, f)
    decreases |ys|
  {
    if ys == [] {
      assert xs + ys == xs;
    } else {
      var init := ys[..|ys| - 1];
      assert (xs + ys)[..|xs + ys| - 1] == xs + init;
      assert (xs + ys)[|xs + ys| - 1] == ys[|ys| - 1];
      SumAppend(xs, init, f);
    }
  }

  /** Prepending adds the new element's value at the front of the fold. */
  lemma SumCons<T>(x: T, xs: seq<T>, f: T -> real)
    ensures Sum([x] + xs, f) == f(x) + Sum(xs, f)
  {
    SumAppend([x], xs, f);
    assert [x][..0] == [];
  }

  /** Taking out the element at `i` takes its value out of the fold. */
  lemma SumRemove<T>(ys: seq<T>, i: nat, f: T -> real)
    requires i < |ys|
    ensures Sum(ys, f) == f(ys[i]) + Sum(ys[..i] + ys[i + 1..], f)
  {
    var upTo := ys[..i + 1];
    assert ys == upTo + ys[i + 1..];
    SumAppend(upTo, ys[i + 1..], f);
    assert upTo[..i] == ys[..i];
    SumAppend(ys[..i], ys[i + 1..], f);
  }

  lemma MultisetRemove<T>(xs: seq<T>, ys: seq<T>, i: nat)
    requires multiset(xs) == multiset(ys)
    requires 0 < |xs| && i < |ys| && ys[i] == xs[0]
    ensures multiset(xs[1..]) == multiset(ys[..i] + ys[i + 1..])
  {
    var x, rest := xs[0], ys[..i] + ys[i + 1..];
    assert ys == ys[..i] + [x] + ys[i + 1..];
    assert xs == [x] + xs[1..];
    calc {
      multiset(xs[1..]);
      (multiset(xs[1..]) + multiset([x])) - multiset([x]);
      multiset(ys) - multiset([x]);
      (multiset(rest) + multiset([x])) - multiset([x]);
      multiset(rest);
    }
  }

  /** The fold does not depend on the order of the elements. */
  lemma {:induction false} SumPermutation<T>(xs: seq<T>, ys: seq<T>, f: T -> real)
    requires multiset(xs) == multiset(ys)
    ensures Sum(xs, f) == Sum(ys, f)
    decreases |xs|
  {
    if xs == [] {
      assert |ys| == |multiset(ys)| == 0;
    } else {
      assert xs[0] in multiset(ys);
      var i :| 0 <= i < |ys| && ys[i] == xs[0];
      MultisetRemove(xs, ys, i);
      SumPermutation(xs[1..], ys[..i] + ys[i + 1..], f);
      SumCons(xs[0], xs[1..], f);
      assert xs == [xs[0]] + xs[1..];
      SumRemove(ys, i, f);
    }
  }

  lemma {:induction false} SumZero<T>(xs: seq<T>, f: T -> real)
    requires forall x | x in xs :: f(x) == 0.0
    ensures Sum(xs, f) == 0.0
    decreases |xs|
  {
    if xs != [] {
      SumZero(xs[..|xs| - 1], f);
    }
  }

  lemma {:induction false} SumNonNegative<T>(xs: seq<T>, f: T -> real)
    requires forall x | x in xs :: f(x) >= 0.0
    ensures Sum(xs, f) >= 0.0
    decreases |xs|
  {
    if xs != [] {
      SumNonNegative(xs[..|xs| - 1], f);
    }
  }

  /** Summing a pointwise sum is the sum of the sums. */
  lemma {:induction false} SumAdd<T>(xs: seq<T>, f: T -> real, g: T -> real, h: T -> real)
    requires forall x | x in xs :: h(x) == f(x) + g(x)
    ensures Sum(xs, h) == Sum(xs, f) + Sum(xs, g)
    decreases |xs|
  {
    if xs != [] {
      SumAdd(xs[..|xs| - 1], f, g, h);
    }
  }

  /** Percentages of parts that add up to the whole add up to 100. */
  lemma SumOfShares<T>(xs: seq<T>, f: T -> real, g: T -> real, t: real)
    requires t > 0.0 && Sum(xs, f) == t
    requires forall x | x in xs :: g(x) == f(x) / t * 100.0
    ensures Sum(xs, g) == 100.0
  {
    SumTimes(xs, f, g, t, 100.0);
    assert Sum(xs, g) * t == 100.0 * t;
    assert (Sum(xs, g) - 100.0) * t == 0.0;
  }

  /** Constant factors on both sides move out of the sum. */
  lemma {:induction false} SumTimes<T>(xs: seq<T>, f: T -> real, g: T -> real, t: real, k: real)
    requires t > 0.0
    requires forall x | x in xs :: g(x) == f(x) / t * k
    ensures Sum(xs, g) * t == k * Sum(xs, f)
    decreases |xs|
  {
    if xs != [] {
      var init, last := xs[..|xs| - 1], xs[|xs| - 1];
      SumTimes(init, f, g, t, k);
      assert Sum(xs, g) * t == Sum(init, g) * t + g(last) * t;
      assert k * Sum(xs, f) == k * Sum(init, f) + k * f(last);
    }
  }

  // ---------------------------------------------------------------------
  // Total spend and monthly budget

  /** With no expenses and no categories, both totals start from 0. */
  lemma EmptyTotals()
    ensures TotalSpent([]) == 0.0 && MonthlyBudget([]) == 0.0
  {
  }

  /** `totalSpent` grows by the amount of a prepended expense. */
  lemma TotalSpentPrepend(e: Expense, es: seq<Expense>)
    ensures TotalSpent([e] + es) == e.amount + TotalSpent(es)
  {
    SumCons(e, es, AmountOf);
  }

  /** `totalSpent` does not depend on the order of the expense list. */
  lemma TotalSpentOrderIndependent(es: seq<Expense>, es': seq<Expense>)
    requires multiset(es) == multiset(es')
    ensures TotalSpent(es) == TotalSpent(es')
  {
    SumPermutation(es, es', AmountOf);
  }

  /** `monthlyBudget` does not depend on the order of the categories. */
  lemma MonthlyBudgetOrderIndependent(cs: seq<Category>, cs': seq<Category>)
    requires multiset(cs) == multiset(cs')
    ensures MonthlyBudget(cs) == MonthlyBudget(cs')
  {
    SumPermutation(cs, cs', LimitOf);
  }

  // ---------------------------------------------------------------------
  // Spend per category

  lemma {:induction false} ExpensesOfAppend(es: seq<Expense>, es': seq<Expense>, id: string)
    ensures ExpensesOf(es + es', id) == ExpensesOf(es, id) + ExpensesOf(es', id)
    decreases |es|
  {
    if es == [] {
      assert es + es' == es';
    } else {
      assert (es + es')[0] == es[0];
      assert (es + es')[1..] == es[1..] + es';
      ExpensesOfAppend(es[1..], es', id);
    }
  }

  /** Appending an expense adds its amount to its own category's spend only. */
  lemma CategorySpendSnoc(es: seq<Expense>, e: Expense, id: string)
    ensures CategorySpend(es + [e], id)
         == CategorySpend(es, id) + (if e.categoryId == id then e.amount else 0.0)
  {
    ExpensesOfAppend(es, [e], id);
    assert ExpensesOf([e], id) == if e.categoryId == id then [e] else [];
    SumAppend(ExpensesOf(es, id), ExpensesOf([e], id), AmountOf);
    assert [e][..0] == [];
  }

  /** Prepending an expense adds its amount to its own category's spend only. */
  lemma CategorySpendPrepend(e: Expense, es: seq<Expense>, id: string)
    ensures CategorySpend([e] + es, id)
         == (if e.categoryId == id then e.amount else 0.0) + CategorySpend(es, id)
  {
    assert ([e] + es)[0] == e;
    assert ([e] + es)[1..] == es;
    assert ExpensesOf([e] + es, id)
        == (if e.categoryId == id then [e] else []) + ExpensesOf(es, id);
    if e.categoryId == id {
      SumCons(e, ExpensesOf(es, id), AmountOf);
    } else {
      assert [] + ExpensesOf(es, id) == ExpensesOf(es, id);
    }
  }

  /** Prepending an expense booked against an existing category leaves no expense dangling. */
  lemma NoDanglingPrepend(cs: seq<Category>, e: Expense, es: seq<Expense>)
    requires NoDanglingExpenses(cs, es) && HasCategory(cs, e.categoryId)
    ensures NoDanglingExpenses(cs, [e] + es)
  {
    forall x | x in [e] + es
      ensures HasCategory(cs, x.categoryId)
    {
      assert x == e || x in es;
    }
  }

  /**
   * `getCategoryExpenses(id)` counts exactly the expenses booked against
   * `id`: it equals the sum over all expenses of the amount masked by id.
   */
  lemma {:induction false} CategorySpendIsMaskedSum(es: seq<Expense>, id: string)
    ensures CategorySpend(es, id) == Sum(es, MaskedAmount(id))
    decreases |es|
  {
    if es != [] {
      var init := es[..|es| - 1];
      assert es == init + [es[|es| - 1]];
      CategorySpendSnoc(init, es[|es| - 1], id);
      CategorySpendIsMaskedSum(init, id);
    }
  }

  /** With non-negative amounts a category's spend lies between 0 and the total. */
  lemma CategorySpendBounds(es: seq<Expense>, id: string)
    requires NonNegativeAmounts(es)
    ensures 0.0 <= CategorySpend(es, id) <= TotalSpent(es)
  {
    CategorySpendIsMaskedSum(es, id);
    SumNonNegative(es, MaskedAmount(id));
    var rest: Expense -> real := (e: Expense) => if e.categoryId == id then 0.0 else e.amount;
    SumAdd(es, MaskedAmount(id), rest, AmountOf);
    SumNonNegative(es, rest);
  }

  /** The indicator of one id, weighted by `amount`. */
  function Indicator(id: string, amount: real): Category -> real
  {
    (c: Category) => if c.id == id then amount else 0.0
  }

  lemma {:induction false} SumIndicator(cs: seq<Category>, id: string, amount: real)
    requires DistinctIds(cs)
    ensures Sum(cs, Indicator(id, amount)) == if HasCategory(cs, id) then amount else 0.0
    decreases |cs|
  {
    if cs == [] {
    } else {
      var init := cs[..|cs| - 1];
      var last := cs[|cs| - 1];
      assert DistinctIds(init);
      SumIndicator(init, id, amount);
      if last.id == id {
        assert !HasCategory(init, id);
      } else {
        assert HasCategory(cs, id) <==> HasCategory(init, id) by {
          if HasCategory(cs, id) {
            var i :| 0 <= i < |cs| && cs[i].id == id;
            assert init[i] == cs[i];
          }
        }
      }
    }
  }

  /**
   * With distinct category ids and no dangling expense, the per-category
   * spends add up to `totalSpent`.
   */
  lemma {:induction false} SpendPartition(cs: seq<Category>, es: seq<Expense>)
    requires DistinctIds(cs)
    requires NoDanglingExpenses(cs, es)
    ensures Sum(cs, SpendOf(es)) == TotalSpent(es)
    decreases |es|
  {
    if es == [] {
      SumZero(cs, SpendOf(es));
    } else {
      var init := es[..|es| - 1];
      var e := es[|es| - 1];
      assert es == init + [e];
      assert NoDanglingExpenses(cs, init);
      SpendPartition(cs, init);
      forall c | c in cs
        ensures SpendOf(es)(c) == SpendOf(init)(c) + Indicator(e.categoryId, e.amount)(c)
      {
        CategorySpendSnoc(init, e, c.id);
      }
      SumAdd(cs, SpendOf(init), Indicator(e.categoryId, e.amount), SpendOf(es));
      SumIndicator(cs, e.categoryId, e.amount);
    }
  }

  // ---------------------------------------------------------------------
  // Distribution

  /** With non-negative amounts every distribution share lies in [0, 100]. */
  lemma DistributionBounds(es: seq<Expense>, id: string)
    requires NonNegativeAmounts(es)
    ensures 0.0 <= DistributionPercent(es, id) <= 100.0
  {
    CategorySpendBounds(es, id);
    var total := TotalSpent(es);
    if total > 0.0 {
      var s := CategorySpend(es, id);
      assert s / total <= 1.0;
    }
  }

  /**
   * With distinct ids, no dangling expense and some spend, the shares of all
   * categories add up to 100.
   */
  lemma DistributionSumsTo100(cs: seq<Category>, es: seq<Expense>)
    requires DistinctIds(cs)
    requires NoDanglingExpenses(cs, es)
    requires TotalSpent(es) > 0.0
    ensures Sum(cs, ShareOf(es)) == 100.0
  {
    SpendPartition(cs, es);
    SumOfShares(cs, SpendOf(es), ShareOf(es), TotalSpent(es));
  }
}
