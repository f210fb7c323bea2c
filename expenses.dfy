/** The expenses page: the month filter over the fetched expenses, the short recent list, the
    category-icon and currency-symbol lookups, and the record the expense form submits. */
module ExpensePage {
  import opened Wrappers
  import opened Schema
  import opened Seqs
  import opened Storage

  /** One entry of the category picker; `name` is the entry's `label` (a reserved word in Dafny). */
  datatype CategoryEntry = CategoryEntry(value: string, name: string, icon: string)

  /** One entry of the currency picker; `name` is the entry's `label`. */
  datatype CurrencyEntry = CurrencyEntry(value: string, name: string, symbol: string)

  /** `expenseCategories`, in picker order. The icons are the page's own text, character for
      character: the UTF-8 bytes of the intended emoji read as Mac Roman characters (the food
      icon starts with U+F8FF, the byte 0xF0 in Mac Roman). */
  const ExpenseCategories: seq<CategoryEntry> := [
    CategoryEntry("food", "Food & Dining", "\U{F8FF}\U{00FC}\U{00E7}\U{03A9}\U{00D4}\U{220F}\U{00E8}"),
    CategoryEntry("transportation", "Transportation", "\U{F8FF}\U{00FC}\U{00F6}\U{00F3}"),
    CategoryEntry("shopping", "Shopping", "\U{F8FF}\U{00FC}\U{00F5}\U{00E7}\U{00D4}\U{220F}\U{00E8}"),
    CategoryEntry("entertainment", "Entertainment", "\U{F8FF}\U{00FC}\U{00E9}\U{00A8}"),
    CategoryEntry("bills", "Bills & Utilities", "\U{F8FF}\U{00FC}\U{00ED}\U{00B0}"),
    CategoryEntry("healthcare", "Healthcare", "\U{F8FF}\U{00FC}\U{00E8}\U{2022}"),
    CategoryEntry("other", "Other", "\U{F8FF}\U{00FC}\U{00EC}\U{00B6}")
  ]

  /** `currencies`, in picker order. The symbols other than "$" are the page's own text, the
      UTF-8 bytes of the intended symbol read as Mac Roman characters: "\U{201A}\U{00C7}\U{00A8}"
      for the euro sign. */
  const Currencies: seq<CurrencyEntry> := [
    CurrencyEntry("USD", "US Dollar", "$"),
    CurrencyEntry("EUR", "Euro", "\U{201A}\U{00C7}\U{00A8}"),
    CurrencyEntry("GBP", "British Pound", "\U{00AC}\U{00A3}"),
    CurrencyEntry("JPY", "Japanese Yen", "\U{00AC}\U{2022}"),
    CurrencyEntry("INR", "Indian Rupee", "\U{201A}\U{00C7}\U{03C0}")
  ]

  /** The icon shown for a category the list does not know; the same text as the "other" icon. */
  const FallbackIcon := "\U{F8FF}\U{00FC}\U{00EC}\U{00B6}"

  /** The symbol shown for a currency the list does not know. */
  const FallbackSymbol := "$"

  /** How many of the month's expenses the recent list shows. */
  const RecentCount := 10

  // ------------------------------------------------------------ the month view

  /** `filteredExpenses`: the fetched expenses dated within `[start, end]` (the bounds of the
      selected month), both ends included, in the order they were fetched. */
  function MonthExpenses(expenses: seq<Expense>, start: int, end: int): (r: seq<Expense>)
    ensures forall i :: 0 <= i < |r| ==> r[i] in expenses && start <= r[i].date <= end
    ensures forall i :: 0 <= i < |expenses| && start <= expenses[i].date <= end ==> expenses[i] in r
    ensures IsSubsequence(r, expenses)
  {
    var inMonth := (e: Expense) => InDateRange(e.date, start, end);
    FilterIsSubsequence(expenses, inMonth);
    Filter(expenses, inMonth)
  }

  /** The page fetches the full listing and filters it itself; it ends up with the same
      expenses as the store's own date-range query, and keeps the listing's newest-first order. */
  lemma MonthMatchesDateRange(store: MemStorage, start: int, end: int)
    requires store.Valid()
    ensures multiset(MonthExpenses(store.GetExpenses(), start, end)) ==
            multiset(store.GetExpensesByDateRange(start, end))
    ensures var r := MonthExpenses(store.GetExpenses(), start, end);
            forall i, j :: 0 <= i < j < |r| ==> r[i].date >= r[j].date
  {
    var p := (e: Expense) => InDateRange(e.date, start, end);
    var listing := store.GetExpenses();
    FilterPermutation(listing, store.ExpenseRows(), p);
    var key := (e: Expense) => -e.date;
    assert SortedBy(listing, key);
    FilterSorted(listing, p, key);
  }

  /** The recent list: the first ten of the month's expenses, or all of them when there are fewer. */
  function RecentExpenses(month: seq<Expense>): (r: seq<Expense>)
    ensures |r| <= RecentCount
    ensures |r| == |month| || |r| == RecentCount
    ensures r <= month
  {
    if |month| <= RecentCount then month else month[..RecentCount]
  }

  /** Over the newest-first month view, the recent list holds the latest expenses of the month:
      none that it leaves out is dated after one it shows. */
  lemma RecentAreLatest(store: MemStorage, start: int, end: int)
    requires store.Valid()
    ensures var month := MonthExpenses(store.GetExpenses(), start, end);
            var shown := RecentExpenses(month);
            forall i, j :: 0 <= i < |shown| <= j < |month| ==> shown[i].date >= month[j].date
  {
    MonthMatchesDateRange(store, start, end);
    PrefixOfLatestFirst(MonthExpenses(store.GetExpenses(), start, end));
  }

  /** In a latest-first list, the recent list is dated no earlier than what it leaves out. */
  lemma PrefixOfLatestFirst(month: seq<Expense>)
    requires forall i, j :: 0 <= i < j < |month| ==> month[i].date >= month[j].date
    ensures var shown := RecentExpenses(month);
            forall i, j :: 0 <= i < |shown| <= j < |month| ==> shown[i].date >= month[j].date
  {
    var shown := RecentExpenses(month);
    assert forall i :: 0 <= i < |shown| ==> shown[i] == month[i];
  }

  // ------------------------------------------------------------ lookups

  /** Entry `i` is the first category whose value is `category`. */
  predicate FirstCategory(category: string, i: int) {
    0 <= i < |ExpenseCategories| && ExpenseCategories[i].value == category &&
    forall j :: 0 <= j < i ==> ExpenseCategories[j].value != category
  }

  /** Entry `i` is the first currency whose code is `currency`. */
  predicate FirstCurrency(currency: string, i: int) {
    0 <= i < |Currencies| && Currencies[i].value == currency &&
    forall j :: 0 <= j < i ==> Currencies[j].value != currency
  }

  /** `getCategoryIcon`: the icon of the first category whose value is `category`, or the
      fallback when none matches (every listed icon is non-empty). */
  function CategoryIcon(category: string): (icon: string)
    ensures forall i :: FirstCategory(category, i) ==> icon == ExpenseCategories[i].icon
    ensures (forall i :: 0 <= i < |ExpenseCategories| ==> ExpenseCategories[i].value != category) ==>
              icon == FallbackIcon
  {
    var isIt := (c: CategoryEntry) => c.value == category;
    var found := Find(ExpenseCategories, isIt);
    assert forall i :: FirstCategory(category, i) ==> found == Some(ExpenseCategories[i]) by {
      forall i | FirstCategory(category, i) ensures found == Some(ExpenseCategories[i]) {
        FindFirst(ExpenseCategories, isIt, i);
      }
    }
    ListedTextsAreNonEmpty();
    match found
    case Some(c) => if c.icon != "" then c.icon else FallbackIcon
    case None => FallbackIcon
  }

  /** The category label under the description: the listed label, or nothing for an unknown value. */
  function CategoryLabel(category: string): (name: Option<string>)
    ensures name.None? <==> forall i :: 0 <= i < |ExpenseCategories| ==> ExpenseCategories[i].value != category
    ensures forall i :: FirstCategory(category, i) ==> name == Some(ExpenseCategories[i].name)
  {
    var isIt := (c: CategoryEntry) => c.value == category;
    var found := Find(ExpenseCategories, isIt);
    assert forall i :: FirstCategory(category, i) ==> found == Some(ExpenseCategories[i]) by {
      forall i | FirstCategory(category, i) ensures found == Some(ExpenseCategories[i]) {
        FindFirst(ExpenseCategories, isIt, i);
      }
    }
    match found
    case Some(c) => Some(c.name)
    case None => None
  }

  /** Every listed icon and symbol is non-empty, so the `||` fallbacks apply only to unknown values. */
  lemma ListedTextsAreNonEmpty()
    ensures forall i :: 0 <= i < |ExpenseCategories| ==> ExpenseCategories[i].icon != ""
    ensures forall i :: 0 <= i < |Currencies| ==> Currencies[i].symbol != ""
  {
  }

  /** No two categories share a value, and no two currencies share a code. */
  lemma ListsHaveDistinctValues()
    ensures forall i, j :: 0 <= i < j < |ExpenseCategories| ==> ExpenseCategories[i].value != ExpenseCategories[j].value
    ensures forall i, j :: 0 <= i < j < |Currencies| ==> Currencies[i].value != Currencies[j].value
  {
  }

  /** So every listed category shows its own icon and name, and every listed currency its own symbol. */
  lemma ListedEntriesShowTheirOwn(i: int, k: int)
    requires 0 <= i < |ExpenseCategories| && 0 <= k < |Currencies|
    ensures CategoryIcon(ExpenseCategories[i].value) == ExpenseCategories[i].icon
    ensures CategoryLabel(ExpenseCategories[i].value) == Some(ExpenseCategories[i].name)
    ensures CurrencySymbol(Currencies[k].value) == Currencies[k].symbol
  {
    ListsHaveDistinctValues();
    assert FirstCategory(ExpenseCategories[i].value, i);
    assert FirstCurrency(Currencies[k].value, k);
  }

  /** The fallback icon is the icon of the "other" category: an unknown category looks like "other". */
  lemma UnknownCategoryLooksLikeOther(category: string)
    requires forall i :: 0 <= i < |ExpenseCategories| ==> ExpenseCategories[i].value != category
    ensures CategoryIcon(category) == CategoryIcon("other")
  {
    ListedEntriesShowTheirOwn(6, 0);
  }

  /** `getCurrencySymbol`: the symbol of the first currency whose code is `currency`, or "$". */
  function CurrencySymbol(currency: string): (symbol: string)
    ensures forall i :: FirstCurrency(currency, i) ==> symbol == Currencies[i].symbol
    ensures (forall i :: 0 <= i < |Currencies| ==> Currencies[i].value != currency) ==>
              symbol == FallbackSymbol
  {
    var isIt := (c: CurrencyEntry) => c.value == currency;
    var found := Find(Currencies, isIt);
    assert forall i :: FirstCurrency(currency, i) ==> found == Some(Currencies[i]) by {
      forall i | FirstCurrency(currency, i) ensures found == Some(Currencies[i]) {
        FindFirst(Currencies, isIt, i);
      }
    }
    ListedTextsAreNonEmpty();
    match found
    case Some(c) => if c.symbol != "" then c.symbol else FallbackSymbol
    case None => FallbackSymbol
  }

  /** An unknown currency is shown with the US dollar's symbol. */
  lemma UnknownCurrencyLooksLikeDollar(currency: string)
    requires forall i :: 0 <= i < |Currencies| ==> Currencies[i].value != currency
    ensures CurrencySymbol(currency) == CurrencySymbol("USD")
  {
    assert Currencies[0].value == "USD";
  }

  // ------------------------------------------------------------ the form

  /** The expense form's values; the date is the `yyyy-MM-dd` text of the date field, which may
      be absent or empty. */
  datatype ExpenseForm = ExpenseForm(
    description: string,
    amount: string,
    currency: string,
    category: string,
    date: Option<string>)

  /** The form's date: the parsed field when it is present and non-empty, otherwise `now`.
      `parseDate` stands for `new Date(text)`. */
  function FormDate(form: ExpenseForm, now: int, parseDate: string -> int): (d: int)
    ensures form.date.Some? && form.date.value != "" ==> d == parseDate(form.date.value)
    ensures form.date.None? || form.date.value == "" ==> d == now
  {
    if form.date.Some? && form.date.value != "" then parseDate(form.date.value) else now
  }

  /** `onSubmit`: the record built from the form (always with a date) is sent as a create, or,
      while an expense is being edited, as an update of that expense carrying every field. */
  function SubmitExpense(form: ExpenseForm, editing: Option<Expense>, now: int, parseDate: string -> int)
    : (s: Submission<NewExpense, ExpensePatch>)
    ensures s.Create? <==> editing.None?
    ensures s.Update? ==> s.id == editing.value.id
    ensures s.Create? ==> s.record.date == Some(FormDate(form, now, parseDate)) &&
                          s.record.description == form.description && s.record.amount == form.amount &&
                          s.record.currency == form.currency && s.record.category == form.category
    ensures s.Update? ==> s.patch.date == Some(FormDate(form, now, parseDate)) &&
                          s.patch.description == Some(form.description) && s.patch.amount == Some(form.amount) &&
                          s.patch.currency == Some(form.currency) && s.patch.category == Some(form.category)
  {
    var date := FormDate(form, now, parseDate);
    match editing
    case None => Create(NewExpense(form.description, form.amount, form.currency, form.category, Some(date)))
    case Some(e) => Update(e.id, ExpensePatch(Some(form.description), Some(form.amount), Some(form.currency),
                                              Some(form.category), Some(date)))
  }

  /** A created expense is stored with exactly the form's values and the form's date; the
      store's own "date or now" default never applies to what the page sends. */
  lemma CreatedExpenseIsTheForm(form: ExpenseForm, now: int, parseDate: string -> int, id: int, at: int)
    ensures var s := SubmitExpense(form, None, now, parseDate);
            var e := ExpenseOf(s.record, id, at);
            e.date == FormDate(form, now, parseDate) && e.description == form.description &&
            e.amount == form.amount && e.currency == form.currency && e.category == form.category
  {
  }

  /** An edited expense becomes the form: every field takes the form's value, while its id and
      creation time stay. */
  lemma EditedExpenseIsTheForm(form: ExpenseForm, editing: Expense, now: int, parseDate: string -> int)
    ensures var s := SubmitExpense(form, Some(editing), now, parseDate);
            MergeExpense(editing, s.patch) ==
              Expense(editing.id, form.description, form.amount, form.currency, form.category,
                      FormDate(form, now, parseDate), editing.createdAt)
  {
  }
}
