/**
 * The expense store held by `AppProvider` (src/context/AppContext.tsx): the
 * expense list, the category catalogue and the budget recommendations, three
 * mutations that replace the expense list, and three derived views.
 *
 * The pure functions below say what each operation computes on any list;
 * the class `ExpenseStore` holds the state and its methods are proved
 * against those functions.
 */
module AppContext {
  import opened Types
  import opened Seqs

  // ---------------------------------------------------------------------
  // Mutations, as functions of the old list

  /** The filter predicate of `deleteExpense`. */
  function OtherId(id: string): Expense -> bool
  {
    (e: Expense) => e.id != id
  }

  /** `deleteExpense`: the entries whose id differs from `id`. */
  function Without(xs: seq<Expense>, id: string): seq<Expense>
  {
    Filter(xs, OtherId(id))
  }

  /** The spread `{ ...e, ...p }` for one field: the patch value when present. */
  function Pick<V>(present: Option<V>, current: V): V
  {
    match present
    case Some(v) => v
    case None => current
  }

  /** `{ ...expense, ...patch }`: fields present in `p` replace those of `e`. */
  function ApplyPatch(e: Expense, p: Patch): Expense
  {
    Expense(
      Pick(p.id, e.id),
      Pick(p.amount, e.amount),
      Pick(p.description, e.description),
      Pick(p.date, e.date),
      Pick(p.categoryId, e.categoryId),
      Pick(p.receiptUrl, e.receiptUrl),
      Pick(p.notes, e.notes),
      Pick(p.isRecurring, e.isRecurring),
      Pick(p.tags, e.tags),
      Pick(p.createdAt, e.createdAt),
      Pick(p.updatedAt, e.updatedAt))
  }

  /** `updateExpense`: patch every entry whose id is `id`, leave the rest. */
  function Patched(xs: seq<Expense>, id: string, p: Patch): (r: seq<Expense>)
    ensures |r| == |xs|
    ensures forall i :: 0 <= i < |xs| ==>
              r[i] == if xs[i].id == id then ApplyPatch(xs[i], p) else xs[i]
  {
    if xs == [] then []
    else [if xs[0].id == id then ApplyPatch(xs[0], p) else xs[0]] + Patched(xs[1..], id, p)
  }

  // ---------------------------------------------------------------------
  // Derived views

  /** `categories.find(c => c.id === id)`. */
  function FindCategory(cs: seq<Category>, id: string): (r: Option<Category>)
    ensures r.None? <==> forall i :: 0 <= i < |cs| ==> cs[i].id != id
    ensures r.Some? ==> exists i :: 0 <= i < |cs| && cs[i] == r.value && r.value.id == id
                          && forall j :: 0 <= j < i ==> cs[j].id != id
  {
    if cs == [] then None
    else if cs[0].id == id then Some(cs[0])
    else
      var r := FindCategory(cs[1..], id);
      assert r.Some? ==> exists i :: 0 <= i < |cs[1..]| && cs[1..][i] == r.value
                           && forall j :: 0 <= j < i ==> cs[1..][j].id != id;
      r
  }

  /** The sum of the amounts, `reduce((total, e) => total + e.amount, 0)`. */
  function TotalAmount(xs: seq<Expense>): int
  {
    if xs == [] then 0 else xs[0].amount + TotalAmount(xs[1..])
  }

  /** Whether the date of `e` lies in the given month (0 to 11) and year. */
  function InMonth(parse: string -> Moment, year: int, month: int): Expense -> bool
  {
    (e: Expense) => parse(e.date).month == month && parse(e.date).year == year
  }

  /** `getMonthlyTotal`, with "now" given as its year and month. */
  function MonthlyTotal(xs: seq<Expense>, parse: string -> Moment, year: int, month: int): int
  {
    TotalAmount(Filter(xs, InMonth(parse, year, month)))
  }

  /**
   * Reference definition of a monthly total: walk the list once, counting an
   * amount exactly when its date is in the month.
   */
  function AmountInMonth(xs: seq<Expense>, parse: string -> Moment, year: int, month: int): int
  {
    if xs == [] then 0
    else
      (if parse(xs[0].date).year == year && parse(xs[0].date).month == month then xs[0].amount else 0)
      + AmountInMonth(xs[1..], parse, year, month)
  }

  /** One step of the `reduce` in `getExpensesByCategory`: `acc[k] = (acc[k] || 0) + amount`. */
  function Bump(acc: map<string, int>, e: Expense): map<string, int>
  {
    acc[e.categoryId := (if e.categoryId in acc then acc[e.categoryId] else 0) + e.amount]
  }

  /** The `reduce` from a given accumulator. */
  function Tally(acc: map<string, int>, xs: seq<Expense>): map<string, int>
    decreases |xs|
  {
    if xs == [] then acc else Tally(Bump(acc, xs[0]), xs[1..])
  }

  /** `getExpensesByCategory`: the `reduce` from the empty record. */
  function CategoryTotals(xs: seq<Expense>): map<string, int>
  {
    Tally(map[], xs)
  }

  /** The category ids that occur in the list. */
  function CategoryIds(xs: seq<Expense>): set<string>
  {
    set e | e in xs :: e.categoryId
  }

  /** Whether an expense belongs to category `k`. */
  function HasCategory(k: string): Expense -> bool
  {
    (e: Expense) => e.categoryId == k
  }

  /** The total spent in category `k`. */
  function CategorySum(xs: seq<Expense>, k: string): int
  {
    TotalAmount(Filter(xs, HasCategory(k)))
  }

  /** Some key of a non-empty map. */
  ghost function AnyKey(m: map<string, int>): (k: string)
    requires m != map[]
    ensures k in m
  {
    var k :| k in m; k
  }

  /** The sum of the values of a map, in no particular order of keys. */
  ghost function MapSum(m: map<string, int>): int
    decreases |m|
  {
    if m == map[] then 0
    else
      var k := AnyKey(m);
      assert |m - {k}| < |m| by { assert (m - {k}).Keys == m.Keys - {k}; }
      m[k] + MapSum(m - {k})
  }

  // ---------------------------------------------------------------------
  // The store

  class ExpenseStore {
    var expenses: seq<Expense>
    var categories: seq<Category>
    var budgetRecommendations: seq<BudgetRecommendation>

    /** The store once its seed data has been assigned. */
    constructor (expenses0: seq<Expense>, categories0: seq<Category>, recommendations0: seq<BudgetRecommendation>)
      ensures expenses == expenses0 && categories == categories0
      ensures budgetRecommendations == recommendations0
    {
      expenses := expenses0;
      categories := categories0;
      budgetRecommendations := recommendations0;
    }

    /** `addExpense`: prepend; the id is not checked for uniqueness. */
    method AddExpense(expense: Expense)
      modifies this`expenses
      ensures expenses == [expense] + old(expenses)
    {
      expenses := [expense] + expenses;
    }

    /** `deleteExpense`: keep the entries with a different id. */
    method DeleteExpense(id: string)
      modifies this`expenses
      ensures expenses == Without(old(expenses), id)
    {
      expenses := Without(expenses, id);
    }

    /** `updateExpense`: merge `patch` into every entry with this id. */
    method UpdateExpense(id: string, patch: Patch)
      modifies this`expenses
      ensures expenses == Patched(old(expenses), id, patch)
    {
      expenses := Patched(expenses, id, patch);
    }

    /** `getCategoryById`: the first category with this id, if any. */
    function GetCategoryById(id: string): (r: Option<Category>)
      reads this
      ensures r.None? <==> forall c :: c in categories ==> c.id != id
      ensures r.Some? ==> exists i :: 0 <= i < |categories| && categories[i] == r.value && r.value.id == id
                            && forall j :: 0 <= j < i ==> categories[j].id != id
    {
      FindCategory(categories, id)
    }

    /** `getMonthlyTotal` for the current year and month (0 to 11). */
    function GetMonthlyTotal(parse: string -> Moment, currentYear: int, currentMonth: int): (r: int)
      reads this
      ensures r == AmountInMonth(expenses, parse, currentYear, currentMonth)
    {
      MonthlyTotalIsAmountInMonth(expenses, parse, currentYear, currentMonth);
      MonthlyTotal(expenses, parse, currentYear, currentMonth)
    }

    /** `getExpensesByCategory`: one pass over the list, bumping a map entry per expense. */
    method GetExpensesByCategory() returns (totals: map<string, int>)
      ensures totals == CategoryTotals(expenses)
      ensures totals.Keys == CategoryIds(expenses)
      ensures forall k :: k in totals ==> totals[k] == CategorySum(expenses, k)
    {
      totals := map[];
      var i := 0;
      while i < |expenses|
        invariant 0 <= i <= |expenses|
        invariant Tally(totals, expenses[i..]) == CategoryTotals(expenses)
      {
        var e := expenses[i];
        var prior := if e.categoryId in totals then totals[e.categoryId] else 0;
        totals := totals[e.categoryId := prior + e.amount];
        assert expenses[i..][1..] == expenses[i + 1..];
        i := i + 1;
      }
      CategoryTotalsKeys(expenses);
      CategoryTotalsValues(expenses);
    }
  }

  // ---------------------------------------------------------------------
  // addExpense

  /** Adding and then deleting an id the list did not hold restores the list. */
  lemma DeleteUndoesAdd(xs: seq<Expense>, e: Expense)
    requires forall i :: 0 <= i < |xs| ==> xs[i].id != e.id
    ensures Without([e] + xs, e.id) == xs
  {
    assert ([e] + xs)[1..] == xs;
    FilterAll(xs, OtherId(e.id));
  }

  // ---------------------------------------------------------------------
  // deleteExpense

  /**
   * Deleting keeps exactly the entries with a different id (each as often as
   * before), in their original order.
   */
  lemma DeleteKeepsOthers(xs: seq<Expense>, id: string, x: Expense)
    ensures IsSubsequence(Without(xs, id), xs)
    ensures multiset(Without(xs, id))[x] == if x.id != id then multiset(xs)[x] else 0
  {
    FilterIsSubsequence(xs, OtherId(id));
    FilterCount(xs, OtherId(id), x);
  }

  /** Deleting an id that is absent changes nothing. */
  lemma DeleteAbsent(xs: seq<Expense>, id: string)
    requires forall i :: 0 <= i < |xs| ==> xs[i].id != id
    ensures Without(xs, id) == xs
  {
    FilterAll(xs, OtherId(id));
  }

  /** Deleting the same id twice is deleting it once. */
  lemma DeleteIdempotent(xs: seq<Expense>, id: string)
    ensures Without(Without(xs, id), id) == Without(xs, id)
  {
    FilterIdempotent(xs, OtherId(id));
  }

  // ---------------------------------------------------------------------
  // updateExpense

  /**
   * In a patched record every field present in the patch has the patch's
   * value, every other field is the record's own; in particular `updatedAt`
   * changes only when the patch supplies it.
   */
  lemma ApplyPatchFields(e: Expense, p: Patch)
    ensures var r := ApplyPatch(e, p);
      && (p.id.Some? ==> r.id == p.id.value) && (p.id.None? ==> r.id == e.id)
      && (p.amount.Some? ==> r.amount == p.amount.value) && (p.amount.None? ==> r.amount == e.amount)
      && (p.description.Some? ==> r.description == p.description.value)
      && (p.description.None? ==> r.description == e.description)
      && (p.date.Some? ==> r.date == p.date.value) && (p.date.None? ==> r.date == e.date)
      && (p.categoryId.Some? ==> r.categoryId == p.categoryId.value)
      && (p.categoryId.None? ==> r.categoryId == e.categoryId)
      && (p.receiptUrl.Some? ==> r.receiptUrl == p.receiptUrl.value)
      && (p.receiptUrl.None? ==> r.receiptUrl == e.receiptUrl)
      && (p.notes.Some? ==> r.notes == p.notes.value) && (p.notes.None? ==> r.notes == e.notes)
      && (p.isRecurring.Some? ==> r.isRecurring == p.isRecurring.value)
      && (p.isRecurring.None? ==> r.isRecurring == e.isRecurring)
      && (p.tags.Some? ==> r.tags == p.tags.value) && (p.tags.None? ==> r.tags == e.tags)
      && (p.createdAt.Some? ==> r.createdAt == p.createdAt.value)
      && (p.createdAt.None? ==> r.createdAt == e.createdAt)
      && (p.updatedAt.Some? ==> r.updatedAt == p.updatedAt.value)
      && (p.updatedAt.None? ==> r.updatedAt == e.updatedAt)
  {
  }

  /** The empty patch changes nothing, and applying a patch twice is applying it once. */
  lemma ApplyPatchLaws(e: Expense, p: Patch)
    ensures ApplyPatch(e, EmptyPatch) == e
    ensures ApplyPatch(ApplyPatch(e, p), p) == ApplyPatch(e, p)
  {
  }

  /** Updating an id that is absent changes nothing. */
  lemma UpdateAbsent(xs: seq<Expense>, id: string, p: Patch)
    requires forall i :: 0 <= i < |xs| ==> xs[i].id != id
    ensures Patched(xs, id, p) == xs
  {
  }

  /**
   * An update can be repeated without effect: when the patch keeps the id,
   * the patched entries match again and the patch is idempotent; when it
   * changes the id, no entry matches the second time.
   */
  lemma UpdateIdempotent(xs: seq<Expense>, id: string, p: Patch)
    ensures Patched(Patched(xs, id, p), id, p) == Patched(xs, id, p)
  {
    var once := Patched(xs, id, p);
    forall i | 0 <= i < |xs|
      ensures Patched(once, id, p)[i] == once[i]
    {
      ApplyPatchLaws(xs[i], p);
    }
  }

  // ---------------------------------------------------------------------
  // getCategoryById: see the contract of FindCategory

  // ---------------------------------------------------------------------
  // getMonthlyTotal

  /** The filter-then-sum total is the sum over exactly the expenses in the month. */
  lemma {:induction false} MonthlyTotalIsAmountInMonth(xs: seq<Expense>, parse: string -> Moment, year: int, month: int)
    ensures MonthlyTotal(xs, parse, year, month) == AmountInMonth(xs, parse, year, month)
  {
    if xs != [] {
      MonthlyTotalIsAmountInMonth(xs[1..], parse, year, month);
      var p := InMonth(parse, year, month);
      if p(xs[0]) {
        assert Filter(xs, p) == [xs[0]] + Filter(xs[1..], p);
        assert (([xs[0]] + Filter(xs[1..], p)))[1..] == Filter(xs[1..], p);
      }
    }
  }

  /** With no expense in the month, the monthly total is 0. */
  lemma MonthlyTotalNone(xs: seq<Expense>, parse: string -> Moment, year: int, month: int)
    requires forall i :: 0 <= i < |xs| ==> !InMonth(parse, year, month)(xs[i])
    ensures MonthlyTotal(xs, parse, year, month) == 0
  {
    FilterNone(xs, InMonth(parse, year, month));
  }

  /** Adding an expense raises the monthly total by its amount exactly when it is in the month. */
  lemma MonthlyTotalAfterAdd(xs: seq<Expense>, e: Expense, parse: string -> Moment, year: int, month: int)
    ensures MonthlyTotal([e] + xs, parse, year, month)
         == (if InMonth(parse, year, month)(e) then e.amount else 0) + MonthlyTotal(xs, parse, year, month)
  {
    MonthlyTotalIsAmountInMonth([e] + xs, parse, year, month);
    MonthlyTotalIsAmountInMonth(xs, parse, year, month);
    assert ([e] + xs)[1..] == xs;
  }

  // ---------------------------------------------------------------------
  // getExpensesByCategory

  /** The reduce adds exactly the category ids of the list to the accumulator's keys. */
  lemma {:induction false} TallyKeys(acc: map<string, int>, xs: seq<Expense>)
    ensures Tally(acc, xs).Keys == acc.Keys + CategoryIds(xs)
    decreases |xs|
  {
    if xs != [] {
      TallyKeys(Bump(acc, xs[0]), xs[1..]);
      assert CategoryIds(xs) == {xs[0].categoryId} + CategoryIds(xs[1..]) by {
        assert xs == [xs[0]] + xs[1..];
      }
    }
  }

  lemma CategoryTotalsKeys(xs: seq<Expense>)
    ensures CategoryTotals(xs).Keys == CategoryIds(xs)
  {
    TallyKeys(map[], xs);
  }

  /** Each bucket ends at its starting value plus the amounts of its category. */
  lemma {:induction false} TallyValue(acc: map<string, int>, xs: seq<Expense>, k: string)
    requires k in Tally(acc, xs)
    ensures Tally(acc, xs)[k] == (if k in acc then acc[k] else 0) + CategorySum(xs, k)
    decreases |xs|
  {
    if xs != [] {
      var p := HasCategory(k);
      TallyValue(Bump(acc, xs[0]), xs[1..], k);
      if p(xs[0]) {
        assert Filter(xs, p) == [xs[0]] + Filter(xs[1..], p);
        assert ([xs[0]] + Filter(xs[1..], p))[1..] == Filter(xs[1..], p);
      }
    }
  }

  /** Every bucket of `getExpensesByCategory` is the total of its category. */
  lemma CategoryTotalsValues(xs: seq<Expense>)
    ensures forall k :: k in CategoryTotals(xs) ==> CategoryTotals(xs)[k] == CategorySum(xs, k)
  {
    forall k | k in CategoryTotals(xs)
      ensures CategoryTotals(xs)[k] == CategorySum(xs, k)
    {
      TallyValue(map[], xs, k);
    }
  }

  /** The sum of a map's values may be taken starting from any of its keys. */
  lemma {:induction false} MapSumRemove(m: map<string, int>, k: string)
    requires k in m
    ensures MapSum(m) == m[k] + MapSum(m - {k})
    decreases |m|
  {
    var j := AnyKey(m);
    if j != k {
      var mj, mk := m - {j}, m - {k};
      assert mj.Keys == m.Keys - {j} && mk.Keys == m.Keys - {k};
      assert |mj| < |m| && |mk| < |m|;
      MapSumRemove(mj, k);
      MapSumRemove(mk, j);
      assert mj - {k} == mk - {j};
    }
  }

  /** One reduce step adds the expense's amount to the sum of the buckets. */
  lemma MapSumBump(acc: map<string, int>, e: Expense)
    ensures MapSum(Bump(acc, e)) == MapSum(acc) + e.amount
  {
    var k := e.categoryId;
    var b := Bump(acc, e);
    MapSumRemove(b, k);
    assert b - {k} == acc - {k};
    if k in acc {
      MapSumRemove(acc, k);
    } else {
      assert acc - {k} == acc;
    }
  }

  /** The reduce adds the total of the list to the sum of the buckets. */
  lemma {:induction false} TallySum(acc: map<string, int>, xs: seq<Expense>)
    ensures MapSum(Tally(acc, xs)) == MapSum(acc) + TotalAmount(xs)
    decreases |xs|
  {
    if xs != [] {
      MapSumBump(acc, xs[0]);
      TallySum(Bump(acc, xs[0]), xs[1..]);
    }
  }

  /** The buckets partition the list without loss: their values sum to the total amount. */
  lemma CategoryTotalsSum(xs: seq<Expense>)
    ensures MapSum(CategoryTotals(xs)) == TotalAmount(xs)
  {
    TallySum(map[], xs);
    assert MapSum(map[]) == 0;
  }

  // ---------------------------------------------------------------------
  // A client of the store

  /**
   * Start empty, add one expense dated in the current month, then remove it:
   * the monthly total goes from 0 to its amount and back to 0, and the
   * per-category totals from empty to one bucket and back to empty.
   */
  method EmptyStoreScenario(e: Expense, parse: string -> Moment, year: int, month: int)
    requires InMonth(parse, year, month)(e)
  {
    var store := new ExpenseStore([], [], []);
    assert store.GetMonthlyTotal(parse, year, month) == 0;
    var totals := store.GetExpensesByCategory();
    assert totals == map[];
    store.AddExpense(e);
    assert store.GetMonthlyTotal(parse, year, month) == e.amount;
    totals := store.GetExpensesByCategory();
    assert totals == map[e.categoryId := e.amount];
    store.DeleteExpense(e.id);
    DeleteUndoesAdd([], e);
    assert store.expenses == [];
    assert store.GetMonthlyTotal(parse, year, month) == 0;
  }
}
