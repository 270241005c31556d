# Expense store and its page logic, in Dafny

A model of the logic of a personal-finance tracker:

- the **expense store** (`AppContext`): the expense list, the category catalogue, three mutations and three derived views;
- the **expense list page** (`ExpensesPage`): the search-and-category filter, and the comparator sort of a copy of the filtered list;
- two **formatting helpers** (`Formatters`): percent change against a baseline, and ellipsis truncation;
- the **add-expense form** (`AddExpensePage`): field updates, the receipt suggestions' accept/dismiss state machine, validation and construction of the new record.

Where the source changes state in place, the model does too. `ExpenseStore` is a class whose `expenses` field the mutations reassign, and `AddExpenseForm` is a class over the form's state fields. Its invariant `Valid` says the receipt suggestions are either absent or a non-empty map; the constructor establishes it and every method keeps it. Each method is proved against a pure function, and the properties are lemmas about those functions. The list page and the helpers are pure functions, as in the source.

Modelling choices:

- Amounts are integer cents; percent change works on exact reals.
- Dates stay strings in the records, as in the source. What `new Date(s)` reports (`getFullYear`, `getMonth`, `getTime`) is a parameter `parse: string -> Moment`.
- "Now" is an explicit year and month. The random id, the two clock readings (one for `createdAt`, one for `updatedAt`) and `parseFloat` are parameters of `HandleSubmit`.
- `Seqs.Filter` models `Array.prototype.filter`. `StableSort.Sort` is a stable insertion sort by an integer rank. Every comparator of the list page is `rank(a) - rank(b)` for some rank (amount, minus amount, time, minus time). `ExpensesPage.SortedIsUnique` shows that any stable sort with that comparator returns this result. So the model fixes the output of the engine's stable `Array.prototype.sort`.
- Two behaviours of the code worth noting, both kept in the model:
  - `updateExpense` does not refresh `updatedAt`. It changes only when the patch supplies it.
  - `addExpense` does not check that the id is unique.

## Model

| member | source | states |
|---|---|---|
| `AppContext.ExpenseStore.constructor` | src/context/AppContext.tsx:35-37 | the store holds exactly the seeded expenses, categories and recommendations |
| `AppContext.ExpenseStore.AddExpense` | src/context/AppContext.tsx:48-50 | the new list is the expense followed by the old list, unchanged; no other field changes |
| `AppContext.ExpenseStore.DeleteExpense` | src/context/AppContext.tsx:52-54 | the new list is `Without(old list, id)`; no other field changes |
| `AppContext.ExpenseStore.UpdateExpense` | src/context/AppContext.tsx:56-60 | the new list is `Patched(old list, id, patch)`; no other field changes |
| `AppContext.ExpenseStore.GetCategoryById` | src/context/AppContext.tsx:62-64 | none exactly when no category has the id; otherwise the category at the first index of the catalogue whose id matches |
| `AppContext.TotalAmount` | src/context/AppContext.tsx:77 | the `reduce` that adds up the amounts from 0; used by `MonthlyTotal` and `CategorySum`, and `CategoryTotalsSum` equates it with the sum of the per-category map |
| `AppContext.MonthlyTotal` | src/context/AppContext.tsx:71-77 | filter by month and year, then sum; its properties are `MonthlyTotalIsAmountInMonth`, `MonthlyTotalNone` and `MonthlyTotalAfterAdd` |
| `AppContext.ExpenseStore.GetMonthlyTotal` | src/context/AppContext.tsx:66-78 | equals the sum of the amounts of exactly the expenses whose month and year are the current ones |
| `AppContext.ExpenseStore.GetExpensesByCategory` | src/context/AppContext.tsx:80-86 | the loop's map is the reduce's result; its keys are exactly the category ids in the list; each value is the total of that category |
| `AppContext.Without` | src/context/AppContext.tsx:53 | the entries whose id differs, in order; its properties are `DeleteKeepsOthers`, `DeleteAbsent`, `DeleteIdempotent` and `DeleteUndoesAdd` |
| `AppContext.ApplyPatch` | src/context/AppContext.tsx:58 | the spread `{ ...expense, ...patch }`; its properties are `ApplyPatchFields` and `ApplyPatchLaws` |
| `AppContext.Patched` | src/context/AppContext.tsx:56-60 | same length and order; entry i is the patched entry when its id matches, and the old entry otherwise |
| `AppContext.FindCategory` | src/context/AppContext.tsx:62-64 | none exactly when no category has the id; otherwise the category at the first index whose id matches |
| `AppContext.DeleteUndoesAdd` | src/context/AppContext.tsx:48-54 | adding an expense whose id is new, then deleting that id, gives back the old list |
| `AppContext.DeleteKeepsOthers` | src/context/AppContext.tsx:52-54 | deleting keeps an order-preserving subsequence; each entry with another id keeps its count, entries with the id are gone |
| `AppContext.DeleteAbsent` | src/context/AppContext.tsx:52-54 | deleting an absent id leaves the list unchanged |
| `AppContext.DeleteIdempotent` | src/context/AppContext.tsx:52-54 | deleting the same id twice equals deleting it once |
| `AppContext.ApplyPatchFields` | src/context/AppContext.tsx:58 | each field present in the patch takes the patch value; every other field, `updatedAt` included, keeps the record's value |
| `AppContext.ApplyPatchLaws` | src/context/AppContext.tsx:58 | the empty patch is the identity, and applying a patch twice equals applying it once |
| `AppContext.UpdateAbsent` | src/context/AppContext.tsx:56-60 | updating an absent id leaves the list unchanged |
| `AppContext.UpdateIdempotent` | src/context/AppContext.tsx:56-60 | repeating an update has no further effect, whether or not the patch changes the id |
| `AppContext.MonthlyTotalIsAmountInMonth` | src/context/AppContext.tsx:66-78 | filter-then-sum equals one pass that counts an amount exactly when its date is in the month |
| `AppContext.MonthlyTotalNone` | src/context/AppContext.tsx:71-77 | with no expense in the month, the total is 0 |
| `AppContext.MonthlyTotalAfterAdd` | src/context/AppContext.tsx:48-78 | prepending an expense raises the monthly total by its amount if it is in the month, and by 0 otherwise |
| `AppContext.CategoryTotals` | src/context/AppContext.tsx:81-85 | the reduce from the empty record; its keys, values and sum are `CategoryTotalsKeys`, `CategoryTotalsValues` and `CategoryTotalsSum` |
| `AppContext.CategoryTotalsKeys` | src/context/AppContext.tsx:80-86 | the keys of the per-category map are exactly the category ids that occur, dangling ids included |
| `AppContext.CategoryTotalsValues` | src/context/AppContext.tsx:80-86 | each value is the sum of the amounts of the expenses with that category id |
| `AppContext.CategoryTotalsSum` | src/context/AppContext.tsx:80-86 | the values of the per-category map sum to the total of all amounts |
| `ExpensesPage.ToLower` | src/pages/Expenses.tsx:26 | same length; each character is folded to lower case |
| `ExpensesPage.Matches` | src/pages/Expenses.tsx:26-28 | the filter callback: the search term (case folded) occurs in the description or is empty, and the category matches or none is selected; `FilteredSound` and `FilteredComplete` state the filter in its terms, `SearchIgnoresCase` its case insensitivity |
| `ExpensesPage.FilteredExpenses` | src/pages/Expenses.tsx:25-29 | the filter of the list page; its properties are `FilteredSound`, `FilteredComplete` and `FilteredUnfiltered` |
| `ExpensesPage.FilteredSound` | src/pages/Expenses.tsx:25-29 | every listed expense matches the search term case-insensitively (or the term is empty) and the selected category (or none is selected) |
| `ExpensesPage.FilteredComplete` | src/pages/Expenses.tsx:25-29 | the list is an order-preserving subsequence; each matching expense keeps its count, and no non-matching expense is listed |
| `ExpensesPage.FilteredUnfiltered` | src/pages/Expenses.tsx:25-29 | with an empty search term and no category the whole list is shown |
| `ExpensesPage.EmptySearchMatchesAll` | src/pages/Expenses.tsx:26 | every description includes the empty term, so the explicit empty-term test changes nothing |
| `ExpensesPage.SearchIgnoresCase` | src/pages/Expenses.tsx:26 | for every term, empty or not, a search term and its lower-case form select the same expenses |
| `ExpensesPage.ParseSortKey` | src/pages/Expenses.tsx:33-42 | the `switch (sortBy)`: the three named keys select their order and every other value falls to the `date-desc`/`default` case; `SortedByKey` states the resulting order for each |
| `ExpensesPage.Compare` | src/pages/Expenses.tsx:32-44 | the comparator, case by case; `CompareIsRankDifference` shows each case is a difference of ranks |
| `ExpensesPage.SortedExpenses` | src/pages/Expenses.tsx:32-44 | the stable sort of the filtered list by the comparator; its properties are `SortedPermutationAndOrder`, `SortedByKey`, `SortedStable` and `SortedIsUnique` |
| `ExpensesPage.CompareIsRankDifference` | src/pages/Expenses.tsx:33-43 | each branch of the comparator is the difference of the ranks of its two arguments |
| `ExpensesPage.SortedPermutationAndOrder` | src/pages/Expenses.tsx:32-44 | the sorted list is a permutation of the filtered list, and the comparator gives at most 0 for every earlier-later pair |
| `ExpensesPage.SortedByKey` | src/pages/Expenses.tsx:33-43 | `amount-asc` gives non-decreasing amounts and `amount-desc` non-increasing ones; `date-asc` gives non-decreasing times; `date-desc` and any unknown key give non-increasing times |
| `ExpensesPage.SortedStable` | src/pages/Expenses.tsx:32-44 | expenses that tie under the comparator keep their order from the filtered list |
| `ExpensesPage.SortedIsUnique` | src/pages/Expenses.tsx:32-44 | a list ordered by the comparator whose ties keep the filtered order is exactly the sorted list |
| `Formatters.CalculatePercentChange` | src/utils/formatters.ts:41-44 | a zero baseline gives 100 for a positive current value and 0 otherwise; any other baseline grown by the result percent gives the current value |
| `Formatters.PercentChangeSign` | src/utils/formatters.ts:43 | no change gives 0; with a positive baseline the result is positive exactly on growth and negative exactly on a fall |
| `Formatters.TruncateText` | src/utils/formatters.ts:52-55 | a text that fits is returned as is; otherwise the result is the first `maxLength` characters and "...", so its length is `maxLength + 3`; a negative limit gives "..." |
| `Formatters.TruncateTextBounded` | src/utils/formatters.ts:52-55 | the result is no longer than the text, or than `maxLength + 3` when truncated; truncating it again to `maxLength + 3` leaves it alone |
| `AddExpensePage.WithText` | src/pages/AddExpense.tsx:29-38 | the named text field takes the new value; every other text field and the checkbox are unchanged |
| `AddExpensePage.WithoutSuggestion` | src/pages/AddExpense.tsx:74-99 | null stays null; the result is null only when no key other than the field was left; otherwise it is non-empty, has the old keys minus the field, and the old values |
| `AddExpensePage.NewExpense` | src/pages/AddExpense.tsx:112-124 | the record copies description, date, category, notes and the recurring flag from the form; it takes the given id and amount and has empty tags; `createdAt` and `updatedAt` are the two separate clock readings; the receipt URL is the preview when one is present and non-empty |
| `AddExpensePage.RequiredFilled` | src/pages/AddExpense.tsx:106 | the submit guard: description, amount, date and category are all non-empty; `HandleSubmit` adds exactly when it holds |
| `AddExpensePage.AddExpenseForm.constructor` | src/pages/AddExpense.tsx:11-27 | the form starts empty and dated today, with no receipt and no suggestions, so `Valid` holds |
| `AddExpensePage.AddExpenseForm.HandleInputChange` | src/pages/AddExpense.tsx:29-38 | a checkbox sets only `isRecurring`, to its checked flag; any other input sets only its own text field |
| `AddExpensePage.AddExpenseForm.HandleFileChange` | src/pages/AddExpense.tsx:40-52 | a chosen file becomes the receipt image, its URL the preview, and reading starts; with no file nothing changes |
| `AddExpensePage.AddExpenseForm.CompleteOcr` | src/pages/AddExpense.tsx:58-68 | the fixed suggestions arrive and reading stops |
| `AddExpensePage.AddExpenseForm.DropSuggestion` | src/pages/AddExpense.tsx:75-85 | the suggestions become `WithoutSuggestion(old, field)`; under `Valid`, dropping a field that was not suggested leaves them unchanged |
| `AddExpensePage.AddExpenseForm.AcceptSuggestion` | src/pages/AddExpense.tsx:71-86 | the field takes the suggested value, and exactly that suggestion is dropped |
| `AddExpensePage.AddExpenseForm.DismissSuggestion` | src/pages/AddExpense.tsx:88-100 | exactly that suggestion is dropped, and dismissing a field that was not suggested changes nothing; the form data is not in the frame, so it is unchanged |
| `AddExpensePage.AddExpenseForm.RemoveReceipt` | src/pages/AddExpense.tsx:261-265 | the preview, the image and the suggestions are cleared together |
| `AddExpensePage.AddExpenseForm.HandleSubmit` | src/pages/AddExpense.tsx:102-131 | it adds exactly when description, amount, date and category are all non-empty; then the new record, stamped with the two clock readings, is prepended to the store; otherwise the store is unchanged |
| `AddExpensePage.OcrResultsKeys` | src/pages/AddExpense.tsx:60-64 | the receipt reader suggests a description, an amount and a category |
| `AddExpensePage.SuggestionsRunOut` | src/pages/AddExpense.tsx:71-100 | once every suggested field has been accepted or dismissed, in any order, the suggestions are null |
| `AddExpensePage.DropAbsentSuggestion` | src/pages/AddExpense.tsx:88-99 | dropping a field that was not suggested leaves the suggestions unchanged |

## Left out

- Loading: the simulated delay, the try/finally around the seed assignment and the `isLoading` flag (src/context/AppContext.tsx:27-46) are asynchronous plumbing. The constructor stands for the state after the seed assignment.
- `useApp` (src/context/AppContext.tsx:108-114) is a React context guard.
- `formatCurrency`, `formatDate`, `formatPercent` and `formatNumber` call a locale library that is not part of this model.
- Fixture data (src/utils/mockData.ts) and the pages made only of layout and hard-coded figures (dashboard, reports, settings, navigation) are not modelled.
- Floating point: amounts are exact integer cents and percent changes exact reals. Rounding, NaN and infinities are not modelled.
- Dates: `parse` stands for `new Date(s)` in the local time zone. Invalid date strings (NaN times, on which the comparator is inconsistent) are not modelled.
- `ExpensesPage.ToLower`: folds ASCII letters only, where `toLowerCase` folds all of Unicode.
- `AppContext.CategoryTotals`: the accumulator is an ordinary map. In the source it is a plain object, so an id such as `constructor` reads an inherited property instead of 0.
- `AddExpensePage.AddExpenseForm.HandleInputChange`: input names are limited to the six form fields. The requires states the page's wiring: the one checkbox is `isRecurring`.
- `AddExpensePage.AddExpenseForm.AcceptSuggestion`: requires a text field, as every call on the page passes `description`, `amount` or `categoryId`.
- `AddExpensePage.AddExpenseForm.HandleSubmit`: the alert, the navigation after submitting, `Math.random` and `parseFloat` are left out. The id, the parsed amount (`parseAmount`) and the two time stamps are parameters.
- `AddExpensePage.AddExpenseForm.CompleteOcr`: the two-second timer is left out. Its fixed values are kept.
- Rendering conditions: a suggestion is shown only when its text is non-empty. They are not modelled.
- `ExpensesPage.SortedExpenses`: sorting a copy is modelled on immutable values. The claim that the store's list is not reordered holds because nothing aliases it; the array copy and the in-place sort are not modelled.
- `Types.Patch`: a patch cannot carry an explicit `undefined` for a required field, which `Partial<Expense>` and the spread at src/context/AppContext.tsx:58 would apply. Nothing in the source calls `updateExpense`, so no caller is affected.
- `Formatters.TruncateText`: `maxLength` is an integer. Fractional or NaN limits are not modelled.
- `Formatters.TruncateText`: lengths and prefixes are counted in Unicode scalar values, where `text.length` and `substring` count UTF-16 code units. Text outside the Basic Multilingual Plane (emoji, for instance) is therefore truncated differently: the source may keep fewer characters or cut a surrogate pair in half, and it may truncate a text that the model returns unchanged.
