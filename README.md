# Budget tracker core

This project models the logic behind a single-page personal-finance tracker (`src/pages/Index.tsx`).
The user keeps spending categories, each with a monthly limit, and logs expenses against them.
From these two in-memory lists the page derives several values:

- total spend, the monthly budget and the share of the budget used;
- each category's spend;
- each category's share of total spend;
- a "near limit" status per category, shown as a badge and in two counters ("in norm" and "near limit").

Two main handlers change the state:

- **Add expense** checks the draft form. It rejects an incomplete form with an error notification. Otherwise it prepends the new expense, clears the form, closes the dialog, and gives a warning or a success notification.
- **Save category** replaces the category that has the staged copy's id.
- Smaller handlers edit the draft's fields or the staged copy's name and limit, and open or dismiss either dialog. Dismissing the edit dialog keeps the staged copy.

Modules:

- `Options` (`options.dfy`): the optional value.
- `JsNumbers` (`js_numbers.dfy`): how JavaScript treats `x / 0` and NaN in the percentage expressions. A non-zero number over zero is ±Infinity, and 0 / 0 is NaN, which fails both `>=` and `<`.
- `Aggregation` (`aggregation.dfy`): the `Category` and `Expense` records. `reduce` is a left fold `Sum`. It also holds total spend, monthly budget, budget used, per-category spend and the distribution share, with their lemmas.
- `Alerting` (`alerting.dfy`): the category lookup, the 90% rule as the insertion code writes it and as the render code writes it, the status counters, and the notification for an accepted expense.
- `Tracker` (`tracker.dfy`): the page state as the class `BudgetTracker`. Its fields are `categories`, `expenses`, the draft, `isDialogOpen`, `isEditCategoryOpen` and `editingCategory`. Its methods are the handlers. The module also holds the limit coercion of the edit field and the id-matching replacement that the save handler uses.

Where the code gives no fallback, the model gives none either:

- `budgetUsed` divides by the monthly budget without a guard. With a zero budget, `BudgetUsed` is NaN or ±Infinity.
- The per-category percentage `(spent / limit) * 100` has no guard either.
- Only the distribution share has a guard: it is 0 unless total spend is positive.

## Model

| member | source | states |
|---|---|---|
| `JsNumbers.Percent` | src/pages/Index.tsx:265 | `(part / whole) * 100` is a number exactly when `whole != 0`, and then that number times `whole` is `100 * part`. It is NaN exactly for 0 / 0 and +Infinity exactly for positive / 0. |
| `JsNumbers.AtLeastBelowSplit` | src/pages/Index.tsx:411-421 | `>= b` and `< b` never both hold, and one of them holds exactly when the value is not NaN. |
| `Aggregation.Sum` | src/pages/Index.tsx:58-59 | `reduce((sum, x) => sum + f(x), 0)`. `SumAppend`, `SumPermutation` and `TotalSpentPrepend` characterise it. |
| `Aggregation.TotalSpent` | src/pages/Index.tsx:58 | The reduce-sum of the amounts. `TotalSpentPrepend`, `TotalSpentOrderIndependent` and `SpendPartition` characterise it. |
| `Aggregation.MonthlyBudget` | src/pages/Index.tsx:59 | The reduce-sum of the limits. `MonthlyBudgetOrderIndependent` and `Tracker.ReplaceByIdBudget` characterise it. |
| `Aggregation.EmptyTotals` | src/pages/Index.tsx:58-59 | `totalSpent` of no expenses and `monthlyBudget` of no categories are both 0, the reduce's initial value. |
| `Aggregation.TotalSpentPrepend` | src/pages/Index.tsx:58 | Prepending an expense raises `totalSpent` by that expense's amount. |
| `Aggregation.SumAppend` | src/pages/Index.tsx:58-59 | The reduce-sum of a concatenation is the sum of the two reduce-sums. |
| `Aggregation.SumPermutation` | src/pages/Index.tsx:58-59 | The reduce-sum gives the same value for any reordering of the list (same multiset). |
| `Aggregation.TotalSpentOrderIndependent` | src/pages/Index.tsx:58 | `totalSpent` is the same for any reordering of the expenses. |
| `Aggregation.MonthlyBudgetOrderIndependent` | src/pages/Index.tsx:59 | `monthlyBudget` is the same for any reordering of the categories. |
| `Aggregation.BudgetUsed` | src/pages/Index.tsx:60 | Budget used is a number exactly when the monthly budget is non-zero, and then that number times the budget is `100 * totalSpent`. It is NaN exactly when both are 0. |
| `Aggregation.ExpensesOf` | src/pages/Index.tsx:63-64 | An expense is in the filtered list exactly when it is in the input and its `categoryId` equals the id. The result is no longer than the input. |
| `Aggregation.ExpensesOfCounts` | src/pages/Index.tsx:63-64 | The filter keeps each matching expense as many times as it occurs in the input, and drops every other one. |
| `Aggregation.ExpensesOfAppend` | src/pages/Index.tsx:63-64 | Filtering a concatenation is concatenating the filtered parts. So the kept expenses stay in their original order. |
| `Aggregation.NoDanglingPrepend` | src/pages/Index.tsx:98 | Prepending an expense whose category exists keeps every expense booked against an existing category. |
| `Aggregation.CategorySpend` | src/pages/Index.tsx:62-66 | A category's spend is 0 when no expense references it. |
| `Aggregation.CategorySpendIsMaskedSum` | src/pages/Index.tsx:62-66 | A category's spend equals the sum, over all expenses, of the amount when `categoryId` matches and 0 otherwise. So it counts exactly the matching expenses. |
| `Aggregation.CategorySpendPrepend` | src/pages/Index.tsx:62-66 | Prepending an expense adds its amount to its own category's spend and leaves every other category's spend unchanged. |
| `Aggregation.CategorySpendBounds` | src/pages/Index.tsx:62-66 | With non-negative amounts, a category's spend lies between 0 and `totalSpent`. |
| `Aggregation.SpendPartition` | src/pages/Index.tsx:62-66 | Assume category ids are distinct and every expense references an existing category. Then the per-category spends add up to `totalSpent`. |
| `Aggregation.DistributionPercent` | src/pages/Index.tsx:366 | The share is 0 unless `totalSpent > 0`. When it is, the share times `totalSpent` is `100 * spend`. |
| `Aggregation.DistributionBounds` | src/pages/Index.tsx:366 | With non-negative amounts, every share lies in [0, 100]. |
| `Aggregation.DistributionSumsTo100` | src/pages/Index.tsx:366 | Assume distinct ids, no dangling expense and `totalSpent > 0`. Then the shares of all categories add up to exactly 100. |
| `Alerting.FindIndex` | src/pages/Index.tsx:102 | The index found is the first category with the id, or the list length when none has it. |
| `Alerting.Find` | src/pages/Index.tsx:102 | `find` returns nothing exactly when no category has the id. Otherwise it returns the category at `FindIndex`, the first position whose id matches. |
| `Alerting.NearLimit` | src/pages/Index.tsx:266 | The badge and "near limit" test `(spent / limit) * 100 >= 90`. `ThresholdsAgree`, `ThresholdsAtZeroLimit` and `ClassifiedAtMostOnce` characterise it. |
| `Alerting.InNorm` | src/pages/Index.tsx:411 | The "in norm" test `(spent / limit) * 100 < 90`. `ClassifiedAtMostOnce` relates it to `NearLimit`. |
| `Alerting.ReachesWarning` | src/pages/Index.tsx:105 | The insertion test `total >= limit * 0.9`. `ThresholdsAgree` and `ThresholdsAtZeroLimit` relate it to `NearLimit`. |
| `Alerting.ThresholdsAgree` | src/pages/Index.tsx:105 | For a positive limit, the insertion test `total >= limit * 0.9` holds exactly when the render test `(total / limit) * 100 >= 90` (line 266) holds, over exact reals. |
| `Alerting.ThresholdsAtZeroLimit` | src/pages/Index.tsx:266 | For a zero limit, the render test holds exactly when spend is positive, while the insertion test holds for any non-negative spend. |
| `Alerting.ClassifiedAtMostOnce` | src/pages/Index.tsx:266 | No category is both "near limit" and "in norm". It is one of the two unless its limit and its spend are both 0. |
| `Alerting.Count` | src/pages/Index.tsx:411 | `filter(...).length` is at most the list length. |
| `Alerting.NearLimitCount` | src/pages/Index.tsx:421 | The "near limit" counter. `CountersAsWritten` and `CountersComplementary` characterise it. |
| `Alerting.InNormCount` | src/pages/Index.tsx:411 | The "in norm" counter as written. `CountersAsWritten`, `CountersMissUnratedCategory` and `InNormCorrectedAgrees` characterise it. |
| `Alerting.CountersAsWritten` | src/pages/Index.tsx:411-421 | "In norm" plus "near limit" plus the categories with zero limit and zero spend equals the number of categories. |
| `Alerting.CountersComplementaryWithNonZeroLimits` | src/pages/Index.tsx:411-421 | When no limit is zero, "in norm" plus "near limit" equals the number of categories. |
| `Alerting.CountersMissUnratedCategory` | src/pages/Index.tsx:411-421 | One category with limit 0 and no expenses is counted by neither counter. |
| `Alerting.CountersComplementary` | src/pages/Index.tsx:411-421 | With "in norm" taken as "not near limit", the two counters always add up to the number of categories. |
| `Alerting.InNormCorrectedAgrees` | src/pages/Index.tsx:411 | The corrected "in norm" count equals the written one when no category has zero limit and zero spend. |
| `Alerting.AddOutcome` | src/pages/Index.tsx:102-109 | The notification for an accepted expense is never an error. It is a warning exactly when the category is found and the category's spend after the insertion reaches 90% of its limit. A warning carries the found category's name. |
| `Alerting.WarningMatchesBadge` | src/pages/Index.tsx:105 | For a found category with a positive limit, the insertion warning fires exactly when the badge test at line 266 holds for the spend after the insertion, over exact reals. |
| `Tracker.CoerceLimit` | src/pages/Index.tsx:200 | An unparsable limit becomes 0. A parsed value is kept. |
| `Tracker.CoercedLimitUnrated` | src/pages/Index.tsx:200 | A limit coerced to 0 on a category with no spend makes the category neither "near limit" nor "in norm". |
| `Tracker.ReplaceById` | src/pages/Index.tsx:76-78 | The result has the same length. Each record whose id equals the staged id becomes the staged record. All other records are unchanged. |
| `Tracker.ReplaceByIdKeepsIds` | src/pages/Index.tsx:76-78 | Saving keeps every position's id, so distinct ids stay distinct. |
| `Tracker.ReplaceByIdIdempotent` | src/pages/Index.tsx:76-78 | Saving the same staged record twice is the same as saving it once. |
| `Tracker.ReplaceByIdAbsent` | src/pages/Index.tsx:76-78 | Saving a record whose id no category has leaves the list unchanged. |
| `Tracker.ReplaceByIdFind` | src/pages/Index.tsx:76-78 | After saving over an existing id, looking that id up returns the staged record. |
| `Tracker.ReplaceByIdBudget` | src/pages/Index.tsx:76-78 | With distinct ids, saving changes `monthlyBudget` by the staged limit minus the replaced limit. |
| `Tracker.ReplaceByIdKeepsHasCategory` | src/pages/Index.tsx:76-78 | After saving, an id is found exactly when it was found before. |
| `Tracker.ReplaceByIdKeepsConsistent` | src/pages/Index.tsx:76-78 | Saving keeps a consistent state consistent: distinct ids, no dangling expense, and the draft's category still exists. |
| `Tracker.SeedConsistent` | src/pages/Index.tsx:31-46 | The seed categories have distinct ids, and every seed expense is booked against one of them. |
| `Tracker.Incomplete` | src/pages/Index.tsx:85 | Some field of the draft is empty. `AddExpense` answers Error and changes nothing exactly in this case. |
| `Tracker.BudgetTracker.constructor` | src/pages/Index.tsx:31-56 | The page starts with the six seed categories and five seed expenses, an empty draft, both dialogs closed and nothing staged. That state is consistent (`Valid`). |
| `Tracker.BudgetTracker.SharesSumTo100` | src/pages/Index.tsx:366 | In every valid page state with positive total spend, the distribution shares of all categories add up to exactly 100. |
| `Tracker.BudgetTracker.UpdateDraft` | src/pages/Index.tsx:136-168 | A change in any of the three form fields (category at line 136, amount at line 159, description at line 168) replaces the draft and changes nothing else. The picker offers only listed categories, so the new draft's category is empty or an existing one, and the state stays consistent. |
| `Tracker.BudgetTracker.SetDialogOpen` | src/pages/Index.tsx:121 | Opening or dismissing the add dialog sets only its open flag. The draft is kept. |
| `Tracker.BudgetTracker.SetEditCategoryOpen` | src/pages/Index.tsx:178 | Opening or dismissing the edit dialog sets only its open flag. The staged copy stays until the next edit or save. |
| `Tracker.BudgetTracker.EditName` | src/pages/Index.tsx:191 | The staged copy's name becomes the input. Nothing else changes. |
| `Tracker.BudgetTracker.AddExpense` | src/pages/Index.tsx:84-110 | An incomplete draft gives Error and leaves the whole state unchanged. Otherwise the new expense is prepended to the old list, the draft is cleared, the dialog closes and the notification is `AddOutcome` on the state before the step. `totalSpent` and the category's spend each rise by the amount, and every other category's spend is unchanged. The categories and the edit state never change, and the state stays consistent. |
| `Tracker.BudgetTracker.EditCategory` | src/pages/Index.tsx:68-71 | Stages the given category and opens the edit dialog. Nothing else changes. |
| `Tracker.BudgetTracker.EditLimit` | src/pages/Index.tsx:200 | The staged copy's limit becomes the coerced input. Nothing else changes. |
| `Tracker.BudgetTracker.SaveCategory` | src/pages/Index.tsx:73-82 | With nothing staged, it returns no notification and changes nothing. Otherwise the categories become `ReplaceById` of the staged copy, the copy is dropped, the edit dialog closes and the notification is Success. It never changes expenses, the draft or the add dialog, and the state stays consistent. |

## Findings

| source | as written | input that shows it | evidently intended | confidence | as-written member | corrected member |
|---|---|---|---|---|---|---|
| src/pages/Index.tsx:411 | "In norm" counts categories with `(spent / limit) * 100 < 90` and "near limit" counts those with `>= 90`. For 0 / 0 the percentage is NaN, which fails both tests. | One category with limit 0 and no expenses. An unparsable limit reaches 0 through the coercion at line 200. The counters show 0 and 0 for 1 category. | Every category is counted by exactly one of the two counters. | high, not executed | `Alerting.CountersMissUnratedCategory` | `Alerting.CountersComplementary` |

## Left out

- Presentation is not modelled: cards, tabs, progress bars, badges, icons, colours, and the `toLocaleString`, `toFixed` and `toLocaleDateString` formatting.
- The history list hiding expenses of a missing category (line 328) is display-only and not modelled.
- The toast library is foreign code. Handlers return a `Notification` value instead. Message texts are not modelled, except the category name in a warning.
- `Date.now()` and `new Date()` become the parameters `id` and `now` of `AddExpense`. The model does not claim that ids are unique, because the code does not ensure it.
- `parseFloat` is not modelled. `AddExpense` takes the parsed amount as a parameter. A `type="number"` input holds either an empty string or a valid number, so a non-empty amount always parses. A NaN amount therefore does not arise and is not modelled. `parseFloat` returning Infinity is not modelled either.
- `EditLimit` takes the parse result as an optional real.
- JavaScript floating point is not modelled: amounts and limits are exact reals. Rounding in sums, in `limit * 0.9` and in `(x / y) * 100` is left out.
- `Alerting.ThresholdsAgree` and `Alerting.WarningMatchesBadge`: the two tests agree over exact reals only. In IEEE-754 doubles they can split when a spend with a decimal part sits exactly at 90%. With limit 1142 (set through the edit field, line 200) and spend 1027.8, `1142 * 0.9` rounds to 1027.8. So line 105 warns, while `(1027.8 / 1142) * 100` rounds to 89.99999999999999. No badge shows, and line 411 counts the category as "in norm". Limit 9 with spend 8.1 behaves the same way.
- Signed zero is left out. It cannot arise here: a coerced limit is never -0, because `-0 || 0` is 0, and every sum starts from +0.
- React's asynchronous state updates are not modelled. Each handler is one atomic step that reads the state before the step. This matches the code, because line 103 reads the old `expenses`.
- `Tracker.BudgetTracker.EditLimit` and `Tracker.BudgetTracker.EditName`: both require a staged copy. The fields are rendered only while one exists (line 184).
- `Aggregation.CategorySpendBounds` and `Aggregation.DistributionBounds`: both assume non-negative amounts. The number input accepts a negative amount, and with one, a spend can exceed the total and a share can leave [0, 100].
- `Aggregation.SpendPartition` and `Aggregation.DistributionSumsTo100`: both assume distinct category ids and no dangling expense. The code has no check for either, but every state the page can reach satisfies both. The seed ids are distinct, no handler removes a category, and saving keeps every id in place. A new expense's category comes from a picker that offers only the listed categories, and an empty one is rejected at line 85. The class carries this as its invariant `Valid()`, built on `Tracker.Consistent`. `Tracker.BudgetTracker.SharesSumTo100` applies them to every valid state.
- `Tracker.BudgetTracker.UpdateDraft`: requires the new draft's category to be empty or a listed one, because the picker (lines 136-148) offers no other value. Every method requires and ensures `Valid()`, which the constructor establishes.
