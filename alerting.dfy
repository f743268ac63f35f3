/**
 * The near-limit rule, evaluated in two places: once when an expense is
 * added (to pick the notification) and on every render (the per-category
 * badge and the "in norm" / "near limit" counters).
 */
module Alerting {
  import opened Options
  import opened JsNumbers
  import opened Aggregation

  /** What the page reports after an attempt to add an expense. */
  datatype Notification = Success | Warning(categoryName: string) | Error

  // ---------------------------------------------------------------------
  // Category lookup

  /** `categories.findIndex(c => c.id === id)`, with |cs| for "not found". */
  function FindIndex(cs: seq<Category>, id: string): (i: nat)
    ensures i <= |cs|
    ensures forall j :: 0 <= j < i ==> cs[j].id != id
    ensures i < |cs| ==> cs[i].id == id
  {
    if cs == [] then 0
    else if cs[0].id == id then 0
    else 1 + FindIndex(cs[1..], id)
  }

  /** `categories.find(c => c.id === id)`: the first category carrying `id`. */
  function Find(cs: seq<Category>, id: string): (r: Option<Category>)
    ensures r.None? <==> !HasCategory(cs, id)
    ensures r.Some? ==> r.value.id == id && r.value in cs
    ensures r.Some? ==> FindIndex(cs, id) < |cs| && r.value == cs[FindIndex(cs, id)]
  {
    var i := FindIndex(cs, id);
    if i < |cs| then Some(cs[i]) else None
  }

  // ---------------------------------------------------------------------
  // The threshold, as each place writes it

  /** The render test `(spent / limit) * 100 >= 90` (badge, "near limit" counter). */
  predicate NearLimit(spent: real, limit: real)
  {
    AtLeast(Percent(spent, limit), 90.0)
  }

  /** The render test `(spent / limit) * 100 < 90` ("in norm" counter). */
  predicate InNorm(spent: real, limit: real)
  {
    Below(Percent(spent, limit), 90.0)
  }

  /** The insertion test `categoryTotal >= category.limit * 0.9`. */
  predicate ReachesWarning(total: real, limit: real)
  {
    total >= limit * 0.9
  }

  /** For a positive limit the insertion test and the render test agree. */
  lemma ThresholdsAgree(total: real, limit: real)
    requires limit > 0.0
    ensures ReachesWarning(total, limit) <==> NearLimit(total, limit)
  {
    var p := Percent(total, limit);
    ScaledComparison(p.value, total, limit);
  }

  /** `v = 100 * t / l` with `l > 0` reaches 90 exactly when `t` reaches 0.9 * l. */
  lemma ScaledComparison(v: real, t: real, l: real)
    requires l > 0.0 && v * l == 100.0 * t
    ensures v >= 90.0 <==> t >= l * 0.9
  {
    assert (v - 90.0) * l == 100.0 * t - 90.0 * l;
    if v >= 90.0 {
      assert (v - 90.0) * l >= 0.0;
    } else {
      assert (90.0 - v) * l > 0.0;
    }
  }

  /**
   * For a zero limit they do not: the render test needs some spend, the
   * insertion test does not.
   */
  lemma ThresholdsAtZeroLimit(total: real)
    ensures NearLimit(total, 0.0) <==> total > 0.0
    ensures ReachesWarning(total, 0.0) <==> total >= 0.0
  {
  }

  /**
   * The render tests never both hold, and one of them holds unless the
   * percentage is 0 / 0.
   */
  lemma ClassifiedAtMostOnce(spent: real, limit: real)
    ensures !(NearLimit(spent, limit) && InNorm(spent, limit))
    ensures NearLimit(spent, limit) || InNorm(spent, limit) <==> !(spent == 0.0 && limit == 0.0)
  {
    AtLeastBelowSplit(Percent(spent, limit), 90.0);
  }

  // ---------------------------------------------------------------------
  // The status counters

  /** `xs.filter(p).length`. */
  function Count<T>(xs: seq<T>, p: T -> bool): (n: nat)
    ensures n <= |xs|
  {
    if xs == [] then 0 else (if p(xs[0]) then 1 else 0) + Count(xs[1..], p)
  }

  /** The badge test applied to a category's current spend. */
  function NearLimitOf(es: seq<Expense>): Category -> bool
  {
    (c: Category) => NearLimit(CategorySpend(es, c.id), c.limit)
  }

  function InNormOf(es: seq<Expense>): Category -> bool
  {
    (c: Category) => InNorm(CategorySpend(es, c.id), c.limit)
  }

  /** A category whose percentage is 0 / 0: zero limit and no spend. */
  function UnratedOf(es: seq<Expense>): Category -> bool
  {
    (c: Category) => c.limit == 0.0 && CategorySpend(es, c.id) == 0.0
  }

  /** The "near limit" counter. */
  function NearLimitCount(cs: seq<Category>, es: seq<Expense>): nat
  {
    Count(cs, NearLimitOf(es))
  }

  /** The "in norm" counter, as written: its own `< 90` test. */
  function InNormCount(cs: seq<Category>, es: seq<Expense>): nat
  {
    Count(cs, InNormOf(es))
  }

  /** The "in norm" counter as intended: every category not near its limit. */
  function WithinLimitOf(es: seq<Expense>): Category -> bool
  {
    (c: Category) => !NearLimit(CategorySpend(es, c.id), c.limit)
  }

  function InNormCountCorrected(cs: seq<Category>, es: seq<Expense>): nat
  {
    Count(cs, WithinLimitOf(es))
  }

  lemma {:induction false} CountThreeWay<T>(xs: seq<T>, p: T -> bool, q: T -> bool, u: T -> bool)
    requires forall x | x in xs :: (p(x) || q(x) || u(x)) && !(p(x) && q(x)) && !(p(x) && u(x)) && !(q(x) && u(x))
    ensures Count(xs, p) + Count(xs, q) + Count(xs, u) == |xs|
    decreases |xs|
  {
    if xs != [] {
      assert xs[0] in xs;
      CountThreeWay(xs[1..], p, q, u);
    }
  }

  lemma {:induction false} CountComplement<T>(xs: seq<T>, p: T -> bool, q: T -> bool)
    requires forall x | x in xs :: q(x) == !p(x)
    ensures Count(xs, p) + Count(xs, q) == |xs|
    decreases |xs|
  {
    if xs != [] {
      assert xs[0] in xs;
      CountComplement(xs[1..], p, q);
    }
  }

  lemma {:induction false} CountNone<T>(xs: seq<T>, p: T -> bool)
    requires forall x | x in xs :: !p(x)
    ensures Count(xs, p) == 0
    decreases |xs|
  {
    if xs != [] {
      assert xs[0] in xs;
      CountNone(xs[1..], p);
    }
  }

  lemma {:induction false} CountSame<T>(xs: seq<T>, p: T -> bool, q: T -> bool)
    requires forall x | x in xs :: p(x) == q(x)
    ensures Count(xs, p) == Count(xs, q)
    decreases |xs|
  {
    if xs != [] {
      assert xs[0] in xs;
      CountSame(xs[1..], p, q);
    }
  }

  /**
   * As written, the two counters together miss exactly the unrated
   * categories (zero limit, no spend), whose percentage is NaN.
   */
  lemma CountersAsWritten(cs: seq<Category>, es: seq<Expense>)
    ensures InNormCount(cs, es) + NearLimitCount(cs, es) + Count(cs, UnratedOf(es)) == |cs|
  {
    forall c | c in cs
      ensures var p, q, u := InNormOf(es)(c), NearLimitOf(es)(c), UnratedOf(es)(c);
        (p || q || u) && !(p && q) && !(p && u) && !(q && u)
    {
      ClassifiedAtMostOnce(CategorySpend(es, c.id), c.limit);
    }
    CountThreeWay(cs, InNormOf(es), NearLimitOf(es), UnratedOf(es));
  }

  /** When no category has a zero limit the counters as written are complementary. */
  lemma CountersComplementaryWithNonZeroLimits(cs: seq<Category>, es: seq<Expense>)
    requires forall c | c in cs :: c.limit != 0.0
    ensures InNormCount(cs, es) + NearLimitCount(cs, es) == |cs|
  {
    CountersAsWritten(cs, es);
    CountNone(cs, UnratedOf(es));
  }

  /**
   * A category whose limit was coerced to 0 and that has no expenses is
   * counted by neither counter.
   */
  lemma CountersMissUnratedCategory()
    ensures var cs := [Category("6", "Одежда", "Shirt", "#F59E0B", 0.0)];
      |cs| == 1 && InNormCount(cs, []) + NearLimitCount(cs, []) == 0
  {
    var cs := [Category("6", "Одежда", "Shirt", "#F59E0B", 0.0)];
    assert CategorySpend([], "6") == 0.0;
    assert !InNormOf([])(cs[0]) && !NearLimitOf([])(cs[0]);
    assert cs[1..] == [];
  }

  /** The corrected counters always split the categories between them. */
  lemma CountersComplementary(cs: seq<Category>, es: seq<Expense>)
    ensures InNormCountCorrected(cs, es) + NearLimitCount(cs, es) == |cs|
  {
    CountComplement(cs, NearLimitOf(es), WithinLimitOf(es));
  }

  /** The corrected "in norm" counter agrees with the written one wherever that one is defined. */
  lemma InNormCorrectedAgrees(cs: seq<Category>, es: seq<Expense>)
    requires forall c | c in cs :: !UnratedOf(es)(c)
    ensures InNormCountCorrected(cs, es) == InNormCount(cs, es)
  {
    forall c | c in cs
      ensures WithinLimitOf(es)(c) == InNormOf(es)(c)
    {
      ClassifiedAtMostOnce(CategorySpend(es, c.id), c.limit);
    }
    CountSame(cs, WithinLimitOf(es), InNormOf(es));
  }

  // ---------------------------------------------------------------------
  // The notification on insertion

  /**
   * The notification for an accepted expense `e` added to `es`: a warning
   * naming the category when the category exists and its spend after the
   * insertion reaches 90% of its limit, success otherwise.
   */
  function AddOutcome(cs: seq<Category>, es: seq<Expense>, e: Expense): (r: Notification)
    ensures r != Error
    ensures r.Warning? <==>
      (Find(cs, e.categoryId).Some?
       && ReachesWarning(CategorySpend([e] + es, e.categoryId), Find(cs, e.categoryId).value.limit))
    ensures r.Warning? ==> r.categoryName == Find(cs, e.categoryId).value.name
  {
    CategorySpendPrepend(e, es, e.categoryId);
    match Find(cs, e.categoryId)
    case None => Success
    case Some(c) =>
      if ReachesWarning(CategorySpend(es, e.categoryId) + e.amount, c.limit) then Warning(c.name)
      else Success
  }

  /**
   * For a category with a positive limit, the insertion warning fires
   * exactly when the badge shows on the next render.
   */
  lemma WarningMatchesBadge(cs: seq<Category>, es: seq<Expense>, e: Expense)
    requires Find(cs, e.categoryId).Some? && Find(cs, e.categoryId).value.limit > 0.0
    ensures AddOutcome(cs, es, e).Warning?
        <==> NearLimit(CategorySpend([e] + es, e.categoryId), Find(cs, e.categoryId).value.limit)
  {
    ThresholdsAgree(CategorySpend([e] + es, e.categoryId), Find(cs, e.categoryId).value.limit);
  }
}
