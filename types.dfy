/** Record shapes of the expense tracker (src/types/index.ts). */
module Types {

  /** A value that may be absent (`undefined` in the source). */
  datatype Option<+T> = None | Some(value: T)

  /** One recorded spending event. Amounts are integer cents. */
  datatype Expense = Expense(
    id: string,
    amount: int,
    description: string,
    date: string,
    categoryId: string,
    receiptUrl: Option<string>,
    notes: Option<string>,
    isRecurring: Option<bool>,
    tags: Option<seq<string>>,
    createdAt: string,
    updatedAt: string)

  /** A classification bucket; `budget` is advisory only. */
  datatype Category = Category(id: string, name: string, color: string, icon: string, budget: Option<int>)

  /** An advisory budget suggestion, held by the store and never changed by it. */
  datatype BudgetRecommendation = BudgetRecommendation(
    id: string,
    categoryId: string,
    recommendedAmount: int,
    previousAmount: int,
    reason: string,
    confidenceScore: real)

  /**
   * A `Partial<Expense>`: a field that is `Some` is present in the patch and
   * overrides the record's value. For the optional fields of an expense a
   * present field may itself carry `None`, an explicit `undefined`.
   */
  datatype Patch = Patch(
    id: Option<string>,
    amount: Option<int>,
    description: Option<string>,
    date: Option<string>,
    categoryId: Option<string>,
    receiptUrl: Option<Option<string>>,
    notes: Option<Option<string>>,
    isRecurring: Option<Option<bool>>,
    tags: Option<Option<seq<string>>>,
    createdAt: Option<string>,
    updatedAt: Option<string>)

  /** The patch with no field present (`{}`). */
  const EmptyPatch := Patch(None, None, None, None, None, None, None, None, None, None, None)

  /**
   * What `new Date(s)` reports for a date string: `getFullYear()`,
   * `getMonth()` (0 to 11, local calendar) and `getTime()` (milliseconds).
   */
  datatype Moment = Moment(year: int, month: int, time: int)
}
