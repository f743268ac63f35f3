/**
 * The page's state and its event handlers: adding an expense from the
 * draft form, and editing a category through a staged copy. Each handler
 * is one atomic step that reads the state as it was before the step.
 */
module Tracker {
  import opened Options
  import opened Aggregation
  import opened Alerting

  /** The add-expense form's raw text fields. */
  datatype Draft = Draft(categoryId: string, amount: string, description: string)

  const EmptyDraft := Draft("", "", "")

  /** Some field of the form is still empty. */
  predicate Incomplete(d: Draft)
  {
    d.categoryId == "" || d.amount == "" || d.description == ""
  }

  /**
   * `parseFloat(text) || 0` for the limit field: text that does not parse
   * (NaN) becomes 0, and a parsed number is kept.
   */
  function CoerceLimit(parsed: Option<real>): (r: real)
    ensures parsed.None? ==> r == 0.0
    ensures parsed.Some? ==> r == parsed.value
  {
    match parsed
    case None => 0.0
    case Some(x) => x
  }

  /**
   * The coercion does not keep the percentages well defined: an unparsable
   * limit on a category with no spend makes its percentage 0 / 0, and the
   * category is neither near its limit nor in norm.
   */
  lemma CoercedLimitUnrated()
    ensures !NearLimit(0.0, CoerceLimit(None)) && !InNorm(0.0, CoerceLimit(None))
  {
    ClassifiedAtMostOnce(0.0, CoerceLimit(None));
  }

  /** `categories.map(c => c.id === staged.id ? staged : c)`. */
  function ReplaceById(cs: seq<Category>, staged: Category): (r: seq<Category>)
    ensures |r| == |cs|
    ensures forall i :: 0 <= i < |cs| ==> r[i] == if cs[i].id == staged.id then staged else cs[i]
  {
    if cs == [] then []
    else [if cs[0].id == staged.id then staged else cs[0]] + ReplaceById(cs[1..], staged)
  }

  /** Replacing keeps every record's id where it was, so distinct ids stay distinct. */
  lemma ReplaceByIdKeepsIds(cs: seq<Category>, staged: Category)
    ensures forall i :: 0 <= i < |cs| ==> ReplaceById(cs, staged)[i].id == cs[i].id
    ensures DistinctIds(cs) ==> DistinctIds(ReplaceById(cs, staged))
  {
  }

  /** Replacing twice with the same staged record is replacing once. */
  lemma ReplaceByIdIdempotent(cs: seq<Category>, staged: Category)
    ensures ReplaceById(ReplaceById(cs, staged), staged) == ReplaceById(cs, staged)
  {
  }

  /** An id that is not in the list changes nothing. */
  lemma ReplaceByIdAbsent(cs: seq<Category>, staged: Category)
    requires !HasCategory(cs, staged.id)
    ensures ReplaceById(cs, staged) == cs
  {
    var r := ReplaceById(cs, staged);
    forall i | 0 <= i < |cs|
      ensures r[i] == cs[i]
    {
      assert cs[i].id != staged.id;
    }
  }

  /** After saving, looking the id up finds the staged record. */
  lemma ReplaceByIdFind(cs: seq<Category>, staged: Category)
    requires HasCategory(cs, staged.id)
    ensures Find(ReplaceById(cs, staged), staged.id) == Some(staged)
  {
    var r := ReplaceById(cs, staged);
    var k :| 0 <= k < |cs| && cs[k].id == staged.id;
    assert r[k] == staged;
    var i := FindIndex(r, staged.id);
    assert i <= k;
    assert cs[i].id == staged.id;
    assert r[i] == staged;
  }

  /**
   * With distinct ids, saving changes the monthly budget by the difference
   * between the staged limit and the limit it replaces.
   */
  lemma ReplaceByIdBudget(cs: seq<Category>, staged: Category)
    requires DistinctIds(cs)
    requires Find(cs, staged.id).Some?
    ensures MonthlyBudget(ReplaceById(cs, staged))
         == MonthlyBudget(cs) - Find(cs, staged.id).value.limit + staged.limit
  {
    var r := ReplaceById(cs, staged);
    var i := FindIndex(cs, staged.id);
    assert r[..i] + r[i + 1..] == cs[..i] + cs[i + 1..] by {
      forall j | 0 <= j < |cs| && j != i
        ensures r[j] == cs[j]
      {
        assert cs[j].id != cs[i].id;
      }
      assert r[..i] == cs[..i];
      assert r[i + 1..] == cs[i + 1..];
    }
    SumRemove(cs, i, LimitOf);
    SumRemove(r, i, LimitOf);
  }

  /** Saving keeps the set of ids, so an id is found after the save exactly when it was before. */
  lemma ReplaceByIdKeepsHasCategory(cs: seq<Category>, staged: Category, id: string)
    ensures HasCategory(ReplaceById(cs, staged), id) <==> HasCategory(cs, id)
  {
    var r := ReplaceById(cs, staged);
    if HasCategory(cs, id) {
      var k :| 0 <= k < |cs| && cs[k].id == id;
      assert r[k].id == id;
    }
    if HasCategory(r, id) {
      var k :| 0 <= k < |r| && r[k].id == id;
      assert cs[k].id == id;
    }
  }

  /**
   * What every state the page can reach satisfies: category ids are
   * distinct (the seeds are, and saving keeps every id in place), every
   * expense is booked against an existing category, and the draft's
   * category is empty or an existing one (the category picker offers
   * only the listed categories).
   */
  predicate Consistent(cs: seq<Category>, es: seq<Expense>, d: Draft)
  {
    && DistinctIds(cs)
    && NoDanglingExpenses(cs, es)
    && (d.categoryId == "" || HasCategory(cs, d.categoryId))
  }

  /** Saving a staged category keeps a consistent state consistent. */
  lemma ReplaceByIdKeepsConsistent(cs: seq<Category>, es: seq<Expense>, d: Draft, staged: Category)
    requires Consistent(cs, es, d)
    ensures Consistent(ReplaceById(cs, staged), es, d)
  {
    ReplaceByIdKeepsIds(cs, staged);
    forall id
      ensures HasCategory(ReplaceById(cs, staged), id) <==> HasCategory(cs, id)
    {
      ReplaceByIdKeepsHasCategory(cs, staged, id);
    }
  }

  /** The record the page starts with for each category. */
  const SeedCategories: seq<Category> := [
    Category("1", "Продукты", "ShoppingCart", "#0EA5E9", 15000.0),
    Category("2", "Транспорт", "Car", "#8B5CF6", 5000.0),
    Category("3", "Развлечения", "Gamepad2", "#F97316", 10000.0),
    Category("4", "Здоровье", "Heart", "#EC4899", 8000.0),
    Category("5", "Коммуналка", "Home", "#10B981", 7000.0),
    Category("6", "Одежда", "Shirt", "#F59E0B", 12000.0)
  ]

  /** The expenses the page starts with; dates are UTC midnights in milliseconds. */
  const SeedExpenses: seq<Expense> := [
    Expense("1", "1", 2500.0, "Покупка в супермаркете", 1733184000000),
    Expense("2", "2", 500.0, "Метро", 1733270400000),
    Expense("3", "3", 1800.0, "Кино с друзьями", 1733270400000),
    Expense("4", "1", 3200.0, "Продукты на неделю", 1733356800000),
    Expense("5", "4", 2100.0, "Аптека", 1733356800000)
  ]

  /** The page starts in a consistent state. */
  lemma SeedConsistent()
    ensures Consistent(SeedCategories, SeedExpenses, EmptyDraft)
  {
    var cs := SeedCategories;
    forall e | e in SeedExpenses
      ensures HasCategory(cs, e.categoryId)
    {
      assert e.categoryId in {"1", "2", "3", "4"};
      if e.categoryId == "1" { assert cs[0].id == "1"; }
      else if e.categoryId == "2" { assert cs[1].id == "2"; }
      else if e.categoryId == "3" { assert cs[2].id == "3"; }
      else { assert cs[3].id == "4"; }
    }
  }

  class BudgetTracker {
    var categories: seq<Category>
    var expenses: seq<Expense>
    var draft: Draft
    var isDialogOpen: bool
    var isEditCategoryOpen: bool
    var editingCategory: Option<Category>

    /** The consistency every reachable state keeps. */
    predicate Valid()
      reads this
    {
      Consistent(categories, expenses, draft)
    }

    /** In every valid state with some spend, the distribution shares add up to 100. */
    lemma SharesSumTo100()
      requires Valid() && TotalSpent(expenses) > 0.0
      ensures Sum(categories, ShareOf(expenses)) == 100.0
    {
      DistributionSumsTo100(categories, expenses);
    }

    constructor ()
      ensures categories == SeedCategories && expenses == SeedExpenses
      ensures draft == EmptyDraft && !isDialogOpen
      ensures !isEditCategoryOpen && editingCategory == None
      ensures Valid()
    {
      categories := SeedCategories;
      expenses := SeedExpenses;
      draft := EmptyDraft;
      isDialogOpen := false;
      isEditCategoryOpen := false;
      editingCategory := None;
      SeedConsistent();
    }

    /** A form field changed: the draft takes the new field values. */
    method UpdateDraft(d: Draft)
      requires Valid()
      requires d.categoryId == "" || HasCategory(categories, d.categoryId)
      modifies this
      ensures Valid()
      ensures draft == d
      ensures categories == old(categories) && expenses == old(expenses)
      ensures isDialogOpen == old(isDialogOpen) && isEditCategoryOpen == old(isEditCategoryOpen)
      ensures editingCategory == old(editingCategory)
    {
      draft := d;
    }

    /**
     * Submit the draft. `id` and `now` stand for the clock reading used as
     * the new expense's id and date; `parsedAmount` is the draft's amount
     * text as parsed by the number input.
     */
    method AddExpense(id: string, parsedAmount: real, now: int) returns (n: Notification)
      requires Valid()
      modifies this
      ensures Valid()
      ensures Incomplete(old(draft)) ==> n == Error && unchanged(this)
      ensures !Incomplete(old(draft)) ==>
        var e := Expense(id, old(draft).categoryId, parsedAmount, old(draft).description, now);
        && expenses == [e] + old(expenses)
        && draft == EmptyDraft && !isDialogOpen
        && n == AddOutcome(old(categories), old(expenses), e)
      ensures !Incomplete(old(draft)) ==>
        && TotalSpent(expenses) == TotalSpent(old(expenses)) + parsedAmount
        && CategorySpend(expenses, old(draft).categoryId)
           == CategorySpend(old(expenses), old(draft).categoryId) + parsedAmount
        && forall other :: other != old(draft).categoryId ==>
             CategorySpend(expenses, other) == CategorySpend(old(expenses), other)
      ensures categories == old(categories)
      ensures isEditCategoryOpen == old(isEditCategoryOpen) && editingCategory == old(editingCategory)
    {
      if Incomplete(draft) {
        n := Error;
        return;
      }
      var e := Expense(id, draft.categoryId, parsedAmount, draft.description, now);
      var before := expenses;
      expenses := [e] + expenses;
      draft := EmptyDraft;
      isDialogOpen := false;
      n := AddOutcome(categories, before, e);
      NoDanglingPrepend(categories, e, before);
      TotalSpentPrepend(e, before);
      forall other
        ensures CategorySpend(expenses, other)
             == (if e.categoryId == other then parsedAmount else 0.0) + CategorySpend(before, other)
      {
        CategorySpendPrepend(e, before, other);
      }
    }

    /**
     * The add dialog's open state follows its trigger and its dismissal;
     * the draft survives a dismissal.
     */
    method SetDialogOpen(open: bool)
      requires Valid()
      modifies this
      ensures Valid()
      ensures isDialogOpen == open
      ensures categories == old(categories) && expenses == old(expenses) && draft == old(draft)
      ensures isEditCategoryOpen == old(isEditCategoryOpen) && editingCategory == old(editingCategory)
    {
      isDialogOpen := open;
    }

    /**
     * Dismissing the edit dialog only hides it: the staged copy stays, and
     * a later save would still write it.
     */
    method SetEditCategoryOpen(open: bool)
      requires Valid()
      modifies this
      ensures Valid()
      ensures isEditCategoryOpen == open
      ensures editingCategory == old(editingCategory)
      ensures categories == old(categories) && expenses == old(expenses)
      ensures draft == old(draft) && isDialogOpen == old(isDialogOpen)
    {
      isEditCategoryOpen := open;
    }

    /** Open the edit dialog on a staged copy of `c`. */
    method EditCategory(c: Category)
      requires Valid()
      modifies this
      ensures Valid()
      ensures editingCategory == Some(c) && isEditCategoryOpen
      ensures categories == old(categories) && expenses == old(expenses)
      ensures draft == old(draft) && isDialogOpen == old(isDialogOpen)
    {
      editingCategory := Some(c);
      isEditCategoryOpen := true;
    }

    /** The name field of the edit dialog changed; the field exists only while a copy is staged. */
    method EditName(name: string)
      requires Valid() && editingCategory.Some?
      modifies this
      ensures Valid()
      ensures editingCategory == Some(old(editingCategory).value.(name := name))
      ensures categories == old(categories) && expenses == old(expenses)
      ensures draft == old(draft) && isDialogOpen == old(isDialogOpen)
      ensures isEditCategoryOpen == old(isEditCategoryOpen)
    {
      editingCategory := Some(editingCategory.value.(name := name));
    }

    /** The limit field of the edit dialog changed; the field exists only while a copy is staged. */
    method EditLimit(parsed: Option<real>)
      requires Valid() && editingCategory.Some?
      modifies this
      ensures Valid()
      ensures editingCategory == Some(old(editingCategory).value.(limit := CoerceLimit(parsed)))
      ensures categories == old(categories) && expenses == old(expenses)
      ensures draft == old(draft) && isDialogOpen == old(isDialogOpen)
      ensures isEditCategoryOpen == old(isEditCategoryOpen)
    {
      editingCategory := Some(editingCategory.value.(limit := CoerceLimit(parsed)));
    }

    /**
     * Save the staged copy over every category with its id, then close the
     * dialog and drop the copy. Without a staged copy nothing happens.
     */
    method SaveCategory() returns (n: Option<Notification>)
      requires Valid()
      modifies this
      ensures Valid()
      ensures old(editingCategory).None? ==> n == None && unchanged(this)
      ensures old(editingCategory).Some? ==>
        && categories == ReplaceById(old(categories), old(editingCategory).value)
        && n == Some(Success)
        && editingCategory == None && !isEditCategoryOpen
      ensures expenses == old(expenses) && draft == old(draft) && isDialogOpen == old(isDialogOpen)
    {
      if editingCategory.None? {
        n := None;
        return;
      }
      ReplaceByIdKeepsConsistent(categories, expenses, draft, editingCategory.value);
      categories := ReplaceById(categories, editingCategory.value);
      isEditCategoryOpen := false;
      editingCategory := None;
      n := Some(Success);
    }
  }
}
