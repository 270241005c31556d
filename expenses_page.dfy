/**
 * The list view of src/pages/Expenses.tsx: the search-and-category filter
 * and the comparator sort of a copy of the filtered list. Case folding is
 * ASCII only; `new Date(s)` is the parameter `parse`.
 */
module ExpensesPage {
  import opened Types
  import opened Seqs
  import opened StableSort

  // ---------------------------------------------------------------------
  // Filter

  /** `toLowerCase` on one character (ASCII letters only). */
  function ToLowerChar(c: char): char
  {
    if 'A' <= c <= 'Z' then (c as int + 32) as char else c
  }

  /** `toLowerCase`: the same length, each character folded. */
  function ToLower(s: string): (r: string)
    ensures |r| == |s|
    ensures forall i :: 0 <= i < |s| ==> r[i] == ToLowerChar(s[i])
  {
    if s == [] then [] else [ToLowerChar(s[0])] + ToLower(s[1..])
  }

  /** `t` occurs in `s` starting at position `i`. */
  predicate OccursAt(s: string, t: string, i: int)
  {
    0 <= i <= |s| - |t| && s[i..i + |t|] == t
  }

  /** `s.includes(t)`: `t` occurs in `s` at some position. */
  predicate Includes(s: string, t: string)
  {
    exists i :: 0 <= i <= |s| && OccursAt(s, t, i)
  }

  /** The filter callback: search term and selected category both match. */
  predicate Matches(e: Expense, searchTerm: string, selectedCategory: string)
  {
    && (searchTerm == "" || Includes(ToLower(e.description), ToLower(searchTerm)))
    && (selectedCategory == "" || e.categoryId == selectedCategory)
  }

  function MatchesFilter(searchTerm: string, selectedCategory: string): Expense -> bool
  {
    (e: Expense) => Matches(e, searchTerm, selectedCategory)
  }

  /** `filteredExpenses`. */
  function FilteredExpenses(expenses: seq<Expense>, searchTerm: string, selectedCategory: string): seq<Expense>
  {
    Filter(expenses, MatchesFilter(searchTerm, selectedCategory))
  }

  // ---------------------------------------------------------------------
  // Sort

  /** The four sort orders of the drop-down. */
  datatype SortKey = AmountAsc | AmountDesc | DateAsc | DateDesc

  /** The `switch (sortBy)`: any value other than the three named ones sorts by date, newest first. */
  function ParseSortKey(sortBy: string): SortKey
  {
    if sortBy == "amount-asc" then AmountAsc
    else if sortBy == "amount-desc" then AmountDesc
    else if sortBy == "date-asc" then DateAsc
    else DateDesc
  }

  /** The comparator passed to `sort`, case by case. */
  function Compare(sortBy: string, parse: string -> Moment, a: Expense, b: Expense): int
  {
    match ParseSortKey(sortBy)
    case AmountAsc => a.amount - b.amount
    case AmountDesc => b.amount - a.amount
    case DateAsc => parse(a.date).time - parse(b.date).time
    case DateDesc => parse(b.date).time - parse(a.date).time
  }

  /** The integer that each comparator orders by, smallest first. */
  function Rank(key: SortKey, parse: string -> Moment, e: Expense): int
  {
    match key
    case AmountAsc => e.amount
    case AmountDesc => -e.amount
    case DateAsc => parse(e.date).time
    case DateDesc => -parse(e.date).time
  }

  function RankOf(key: SortKey, parse: string -> Moment): Expense -> int
  {
    (e: Expense) => Rank(key, parse, e)
  }

  /** `sortedExpenses`: `[...filtered].sort(comparator)`, a stable sort of a copy. */
  function SortedExpenses(filtered: seq<Expense>, sortBy: string, parse: string -> Moment): seq<Expense>
  {
    Sort(filtered, RankOf(ParseSortKey(sortBy), parse))
  }

  // ---------------------------------------------------------------------
  // Filter properties

  /** Soundness: every listed expense satisfies both conditions. */
  lemma FilteredSound(expenses: seq<Expense>, searchTerm: string, selectedCategory: string)
    ensures forall e :: e in FilteredExpenses(expenses, searchTerm, selectedCategory) ==>
              && (searchTerm == "" || Includes(ToLower(e.description), ToLower(searchTerm)))
              && (selectedCategory == "" || e.categoryId == selectedCategory)
  {
    var r := FilteredExpenses(expenses, searchTerm, selectedCategory);
    forall e | e in r
      ensures Matches(e, searchTerm, selectedCategory)
    {
      var i :| 0 <= i < |r| && r[i] == e;
      assert MatchesFilter(searchTerm, selectedCategory)(r[i]);
    }
  }

  /**
   * Completeness and order: the list drops nothing that matches (each
   * matching expense occurs as often as in the store) and is an
   * order-preserving subsequence of the store's list.
   */
  lemma FilteredComplete(expenses: seq<Expense>, searchTerm: string, selectedCategory: string, e: Expense)
    ensures IsSubsequence(FilteredExpenses(expenses, searchTerm, selectedCategory), expenses)
    ensures Matches(e, searchTerm, selectedCategory) ==>
              multiset(FilteredExpenses(expenses, searchTerm, selectedCategory))[e] == multiset(expenses)[e]
    ensures !Matches(e, searchTerm, selectedCategory) ==>
              e !in FilteredExpenses(expenses, searchTerm, selectedCategory)
  {
    var p := MatchesFilter(searchTerm, selectedCategory);
    FilterIsSubsequence(expenses, p);
    FilterCount(expenses, p, e);
    if !Matches(e, searchTerm, selectedCategory) {
      assert multiset(Filter(expenses, p))[e] == 0;
    }
  }

  /** With no search term and no category, the whole list is shown. */
  lemma FilteredUnfiltered(expenses: seq<Expense>)
    ensures FilteredExpenses(expenses, "", "") == expenses
  {
    FilterAll(expenses, MatchesFilter("", ""));
  }

  /** The explicit empty-term test is redundant: every string includes "". */
  lemma EmptySearchMatchesAll(description: string)
    ensures Includes(ToLower(description), ToLower(""))
  {
    assert OccursAt(ToLower(description), ToLower(""), 0);
  }

  /** Folding twice is folding once. */
  lemma {:induction false} ToLowerIdempotent(s: string)
    ensures ToLower(ToLower(s)) == ToLower(s)
  {
    var once := ToLower(s);
    assert forall i :: 0 <= i < |s| ==> ToLowerChar(once[i]) == once[i];
  }

  /** The search ignores case: a term and its lower-case form select the same expenses. */
  lemma SearchIgnoresCase(e: Expense, searchTerm: string, selectedCategory: string)
    ensures Matches(e, searchTerm, selectedCategory) == Matches(e, ToLower(searchTerm), selectedCategory)
  {
    ToLowerIdempotent(searchTerm);
  }

  // ---------------------------------------------------------------------
  // Sort properties

  /** The source's comparator is exactly the difference of the ranks. */
  lemma CompareIsRankDifference(sortBy: string, parse: string -> Moment, a: Expense, b: Expense)
    ensures Compare(sortBy, parse, a, b) == Rank(ParseSortKey(sortBy), parse, a) - Rank(ParseSortKey(sortBy), parse, b)
  {
  }

  /** The sorted list is a rearrangement of the filtered one, and the comparator never sees a pair out of order. */
  lemma SortedPermutationAndOrder(filtered: seq<Expense>, sortBy: string, parse: string -> Moment)
    ensures multiset(SortedExpenses(filtered, sortBy, parse)) == multiset(filtered)
    ensures var r := SortedExpenses(filtered, sortBy, parse);
      forall i, j :: 0 <= i < j < |r| ==> Compare(sortBy, parse, r[i], r[j]) <= 0
  {
    var rank := RankOf(ParseSortKey(sortBy), parse);
    SortSorted(filtered, rank);
    var r := SortedExpenses(filtered, sortBy, parse);
    forall i, j | 0 <= i < j < |r|
      ensures Compare(sortBy, parse, r[i], r[j]) <= 0
    {
      assert rank(r[i]) <= rank(r[j]);
    }
  }

  /** Each sort key orders the list the way its name says; unknown keys order by date, newest first. */
  lemma SortedByKey(filtered: seq<Expense>, sortBy: string, parse: string -> Moment)
    ensures var r := SortedExpenses(filtered, sortBy, parse);
      && (sortBy == "amount-asc" ==> forall i, j :: 0 <= i < j < |r| ==> r[i].amount <= r[j].amount)
      && (sortBy == "amount-desc" ==> forall i, j :: 0 <= i < j < |r| ==> r[i].amount >= r[j].amount)
      && (sortBy == "date-asc" ==> forall i, j :: 0 <= i < j < |r| ==> parse(r[i].date).time <= parse(r[j].date).time)
      && (ParseSortKey(sortBy) == DateDesc ==>
            forall i, j :: 0 <= i < j < |r| ==> parse(r[i].date).time >= parse(r[j].date).time)
  {
    SortedPermutationAndOrder(filtered, sortBy, parse);
  }

  /**
   * Stability: the expenses that tie under the comparator keep their
   * relative order from the filtered list.
   */
  lemma SortedStable(filtered: seq<Expense>, sortBy: string, parse: string -> Moment, k: int)
    ensures var rank := RankOf(ParseSortKey(sortBy), parse);
      Filter(SortedExpenses(filtered, sortBy, parse), RankIs(rank, k)) == Filter(filtered, RankIs(rank, k))
  {
    SortStable(filtered, RankOf(ParseSortKey(sortBy), parse), k);
  }

  /**
   * Any stable sort with the source's comparator gives exactly this list:
   * a list ordered by the comparator whose ties keep the filtered order is
   * `SortedExpenses`.
   */
  lemma SortedIsUnique(filtered: seq<Expense>, sortBy: string, parse: string -> Moment, r: seq<Expense>)
    requires forall i, j :: 0 <= i < j < |r| ==> Compare(sortBy, parse, r[i], r[j]) <= 0
    requires forall k :: Filter(r, RankIs(RankOf(ParseSortKey(sortBy), parse), k))
                      == Filter(filtered, RankIs(RankOf(ParseSortKey(sortBy), parse), k))
    ensures r == SortedExpenses(filtered, sortBy, parse)
  {
    var rank := RankOf(ParseSortKey(sortBy), parse);
    forall i, j | 0 <= i < j < |r|
      ensures rank(r[i]) <= rank(r[j])
    {
      CompareIsRankDifference(sortBy, parse, r[i], r[j]);
    }
    SortIsTheStableSort(filtered, r, rank);
  }
}
