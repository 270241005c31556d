/**
 * The state of the add-expense form (src/pages/AddExpense.tsx): the form
 * fields, the receipt image and its preview, and the receipt suggestions,
 * which are either absent (`null`) or a non-empty map from form field to
 * suggested text. Submitting adds a new record to the expense store.
 */
module AddExpensePage {
  import opened Types
  import opened AppContext

  /** The form's input names. */
  datatype FormField = Description | Amount | Date | CategoryId | Notes | IsRecurring

  /** The fields that hold text; `isRecurring` is the one checkbox. */
  predicate IsTextField(f: FormField)
  {
    !f.IsRecurring?
  }

  /** `expenseData`. */
  datatype ExpenseForm = ExpenseForm(
    description: string,
    amount: string,
    date: string,
    categoryId: string,
    notes: string,
    isRecurring: bool)

  /** The text held by a text field. */
  function TextOf(d: ExpenseForm, f: FormField): string
    requires IsTextField(f)
  {
    match f
    case Description => d.description
    case Amount => d.amount
    case Date => d.date
    case CategoryId => d.categoryId
    case Notes => d.notes
  }

  /** `{ ...expenseData, [f]: v }` for a text field: only that field changes. */
  function WithText(d: ExpenseForm, f: FormField, v: string): (r: ExpenseForm)
    requires IsTextField(f)
    ensures TextOf(r, f) == v
    ensures forall g :: IsTextField(g) && g != f ==> TextOf(r, g) == TextOf(d, g)
    ensures r.isRecurring == d.isRecurring
  {
    match f
    case Description => d.(description := v)
    case Amount => d.(amount := v)
    case Date => d.(date := v)
    case CategoryId => d.(categoryId := v)
    case Notes => d.(notes := v)
  }

  /** The suggestions read from a receipt: `null`, or the suggested text per field. */
  type Suggestions = Option<map<FormField, string>>

  /**
   * Dropping one suggestion: copy the map, delete the key, and fall back to
   * `null` when no key is left. Absent suggestions stay absent.
   */
  function WithoutSuggestion(s: Suggestions, f: FormField): (r: Suggestions)
    ensures s.None? ==> r.None?
    ensures s.Some? && r.None? ==> s.value.Keys <= {f}
    ensures r.Some? ==> s.Some? && r.value.Keys == s.value.Keys - {f} && r.value != map[]
    ensures r.Some? ==> forall g :: g in r.value ==> r.value[g] == s.value[g]
  {
    match s
    case None => None
    case Some(m) =>
      var rest := m - {f};
      assert rest.Keys == m.Keys - {f};
      if rest.Keys == {} then None else Some(rest)
  }

  /** What the simulated receipt reader reports after its delay. */
  const OcrResults: map<FormField, string> :=
    map[Description := "Grocery shopping at Whole Foods", Amount := "87.43", CategoryId := "cat1"]

  /** The required fields are non-empty. */
  predicate RequiredFilled(d: ExpenseForm)
  {
    d.description != "" && d.amount != "" && d.date != "" && d.categoryId != ""
  }

  /**
   * The record built on submit. `amount` is what `parseFloat` makes of the
   * amount text and `id` the random id. The clock is read twice, once for
   * each time stamp, so `createdAt` and `updatedAt` may differ.
   */
  function NewExpense(d: ExpenseForm, id: string, amount: int, receiptPreview: Option<string>,
                      createdAt: string, updatedAt: string): (r: Expense)
    ensures r.id == id && r.amount == amount
    ensures r.description == d.description && r.date == d.date && r.categoryId == d.categoryId
    ensures r.notes == Some(d.notes) && r.isRecurring == Some(d.isRecurring) && r.tags == Some([])
    ensures r.receiptUrl.Some? <==> receiptPreview.Some? && receiptPreview.value != ""
    ensures r.receiptUrl.Some? ==> r.receiptUrl == receiptPreview
    ensures r.createdAt == createdAt && r.updatedAt == updatedAt
  {
    Expense(
      id, amount, d.description, d.date, d.categoryId,
      // `receiptPreview || undefined`: an empty preview URL counts as none
      if receiptPreview.Some? && receiptPreview.value != "" then receiptPreview else None,
      Some(d.notes), Some(d.isRecurring), Some([]), createdAt, updatedAt)
  }

  class AddExpenseForm {
    var expenseData: ExpenseForm
    var receiptImage: Option<string>
    var receiptPreview: Option<string>
    var isProcessingReceipt: bool
    var aiSuggestions: Suggestions

    /** The suggestions are either absent or a non-empty map. */
    predicate Valid()
      reads this
    {
      aiSuggestions.Some? ==> aiSuggestions.value != map[]
    }

    /** An empty form dated `today` (the date part of the current ISO time stamp). */
    constructor (today: string)
      ensures expenseData == ExpenseForm("", "", today, "", "", false)
      ensures receiptImage.None? && receiptPreview.None? && !isProcessingReceipt && aiSuggestions.None?
      ensures Valid()
    {
      expenseData := ExpenseForm("", "", today, "", "", false);
      receiptImage := None;
      receiptPreview := None;
      isProcessingReceipt := false;
      aiSuggestions := None;
    }

    /**
     * `handleInputChange`: a checkbox stores its `checked` flag, any other
     * input its text, under the input's name. The page's only checkbox is
     * `isRecurring`.
     */
    method HandleInputChange(name: FormField, inputType: string, value: string, checked: bool)
      requires (inputType == "checkbox") <==> name == IsRecurring
      requires Valid()
      modifies this`expenseData
      ensures Valid()
      ensures name == IsRecurring ==> expenseData == old(expenseData).(isRecurring := checked)
      ensures name != IsRecurring ==> expenseData == WithText(old(expenseData), name, value)
    {
      if inputType == "checkbox" {
        expenseData := expenseData.(isRecurring := checked);
      } else {
        expenseData := WithText(expenseData, name, value);
      }
    }

    /** `handleFileChange` and the start of the receipt reading: keep the file and its preview URL. */
    method HandleFileChange(file: Option<string>, previewUrl: string)
      requires Valid()
      modifies this`receiptImage, this`receiptPreview, this`isProcessingReceipt
      ensures Valid()
      ensures file.Some? ==> receiptImage == file && receiptPreview == Some(previewUrl) && isProcessingReceipt
      ensures file.None? ==> receiptImage == old(receiptImage) && receiptPreview == old(receiptPreview)
                             && isProcessingReceipt == old(isProcessingReceipt)
    {
      if file.Some? {
        receiptImage := file;
        receiptPreview := Some(previewUrl);
        isProcessingReceipt := true;
      }
    }

    /** The receipt reader's timer fires: the fixed suggestions arrive. */
    method CompleteOcr()
      requires Valid()
      modifies this`aiSuggestions, this`isProcessingReceipt
      ensures Valid()
      ensures aiSuggestions == Some(OcrResults) && !isProcessingReceipt
    {
      aiSuggestions := Some(OcrResults);
      isProcessingReceipt := false;
      assert Description in OcrResults;
    }

    /**
     * The shared tail of accept and dismiss: delete the key from a copy,
     * `null` when none is left. Dropping a field that was not suggested
     * changes nothing, which relies on `Valid`.
     */
    method DropSuggestion(field: FormField)
      requires Valid()
      modifies this`aiSuggestions
      ensures Valid()
      ensures aiSuggestions == WithoutSuggestion(old(aiSuggestions), field)
      ensures old(aiSuggestions).Some? && field !in old(aiSuggestions).value ==> aiSuggestions == old(aiSuggestions)
    {
      if aiSuggestions.Some? && field !in aiSuggestions.value {
        DropAbsentSuggestion(aiSuggestions.value, field);
      }
      if aiSuggestions.Some? {
        var newSuggestions := aiSuggestions.value;
        newSuggestions := newSuggestions - {field};
        if |newSuggestions.Keys| == 0 {
          aiSuggestions := None;
        } else {
          aiSuggestions := Some(newSuggestions);
        }
      }
    }

    /** `acceptSuggestion`: copy the suggested text into the field and drop the suggestion. */
    method AcceptSuggestion(field: FormField, value: string)
      requires IsTextField(field)
      requires Valid()
      modifies this`expenseData, this`aiSuggestions
      ensures Valid()
      ensures expenseData == WithText(old(expenseData), field, value)
      ensures aiSuggestions == WithoutSuggestion(old(aiSuggestions), field)
    {
      expenseData := WithText(expenseData, field, value);
      DropSuggestion(field);
    }

    /** `dismissSuggestion`: drop the suggestion, leave the form alone. */
    method DismissSuggestion(field: FormField)
      requires Valid()
      modifies this`aiSuggestions
      ensures Valid()
      ensures aiSuggestions == WithoutSuggestion(old(aiSuggestions), field)
      ensures old(aiSuggestions).Some? && field !in old(aiSuggestions).value ==> aiSuggestions == old(aiSuggestions)
    {
      DropSuggestion(field);
    }

    /** The receipt's "Remove" button: preview, image and suggestions go together. */
    method RemoveReceipt()
      requires Valid()
      modifies this`receiptPreview, this`receiptImage, this`aiSuggestions
      ensures Valid()
      ensures receiptPreview.None? && receiptImage.None? && aiSuggestions.None?
    {
      receiptPreview := None;
      receiptImage := None;
      aiSuggestions := None;
    }

    /**
     * `handleSubmit`: with a required field empty nothing is added (the
     * source shows an alert); otherwise the new record goes to the front of
     * the store's list.
     */
    method HandleSubmit(store: ExpenseStore, id: string, parseAmount: string -> int,
                        createdAt: string, updatedAt: string)
      returns (added: bool)
      requires Valid()
      modifies store`expenses
      ensures Valid()
      ensures added == RequiredFilled(expenseData)
      ensures added ==>
                store.expenses
                == [NewExpense(expenseData, id, parseAmount(expenseData.amount), receiptPreview, createdAt, updatedAt)]
                   + old(store.expenses)
      ensures !added ==> store.expenses == old(store.expenses)
    {
      if !RequiredFilled(expenseData) {
        return false;
      }
      var newExpense := NewExpense(expenseData, id, parseAmount(expenseData.amount), receiptPreview, createdAt, updatedAt);
      store.AddExpense(newExpense);
      added := true;
    }
  }

  /** The receipt reader suggests a description, an amount and a category. */
  lemma OcrResultsKeys()
    ensures OcrResults.Keys == {Description, Amount, CategoryId}
  {
  }

  /**
   * Working through the suggestions one by one, accepting or dismissing
   * each, empties them: once every suggested field has been handled, in any
   * order, the state is `null` again.
   */
  lemma SuggestionsRunOut(s: Suggestions, f1: FormField, f2: FormField, f3: FormField)
    requires s.Some? ==> s.value.Keys <= {f1, f2, f3}
    ensures WithoutSuggestion(WithoutSuggestion(WithoutSuggestion(s, f1), f2), f3).None?
  {
    var s1 := WithoutSuggestion(s, f1);
    var s2 := WithoutSuggestion(s1, f2);
    if s1.Some? {
      assert s1.value.Keys <= {f2, f3};
    }
    if s2.Some? {
      assert s2.value.Keys <= {f3};
    }
  }

  /** A suggestion for a field that was never suggested is dropped without effect on the map. */
  lemma DropAbsentSuggestion(m: map<FormField, string>, f: FormField)
    requires m != map[] && f !in m
    ensures WithoutSuggestion(Some(m), f) == Some(m)
  {
    assert m - {f} == m;
  }

  /** A client of the form: scan a receipt, accept the amount, dismiss the rest. */
  method ReceiptScenario()
  {
    var form := new AddExpenseForm("2024-03-15");
    form.HandleFileChange(Some("receipt.jpg"), "blob:receipt");
    form.CompleteOcr();
    OcrResultsKeys();
    form.AcceptSuggestion(Amount, "87.43");
    assert form.aiSuggestions.Some? && form.aiSuggestions.value.Keys == {Description, CategoryId};
    form.DismissSuggestion(Description);
    form.DismissSuggestion(CategoryId);
    assert form.aiSuggestions.None? && form.expenseData.amount == "87.43";
  }

  /** A client of the form: a submit with empty fields is refused, a filled one adds the record. */
  method SubmitScenario(store: ExpenseStore, id: string, parseAmount: string -> int, createdAt: string, updatedAt: string)
    modifies store`expenses
  {
    var form := new AddExpenseForm("2024-03-15");
    form.HandleFileChange(Some("receipt.jpg"), "blob:receipt");
    var added := form.HandleSubmit(store, id, parseAmount, createdAt, updatedAt);
    assert !added;
    form.HandleInputChange(Description, "text", "Groceries", false);
    form.HandleInputChange(Amount, "number", "87.43", false);
    form.HandleInputChange(CategoryId, "select-one", "cat1", false);
    added := form.HandleSubmit(store, id, parseAmount, createdAt, updatedAt);
    assert added && store.expenses[0].receiptUrl == Some("blob:receipt");
    assert store.expenses[0].createdAt == createdAt && store.expenses[0].updatedAt == updatedAt;
  }
}
