/** The store's derived values (src/contexts/FinanceContext.tsx:461-606): the filtered
    transaction list, balances and period totals, expenses grouped by category, the
    seven-month income/expense series and the pending expenses. */
module Queries {
  import opened Common
  import opened Calendar
  import opened Types
  import opened Sorting
  import opened Crud

  // ---------------------------------------------------------------
  // getFilteredTransactions
  // ---------------------------------------------------------------

  /** A member filter is on only for a non-empty id: the empty string is falsy. */
  predicate MemberSelected(selected: Option<Id>) {
    selected.Some? && selected.value != ""
  }

  predicate MatchesMember(t: Transaction, selected: Option<Id>) {
    !MemberSelected(selected) || t.memberId == selected
  }

  /** Both ends inclusive. */
  predicate InDateRange(t: Transaction, range: DateRange) {
    IsDateInRange(t.date, range.startDate, range.endDate)
  }

  /** Whether `query` (already lower-cased) occurs in the lower-cased description or in
      the lower-cased name of the transaction's category, when that category exists. */
  predicate MatchesSearch(t: Transaction, query: string, categories: seq<Category>) {
    Includes(ToLower(t.description), query)
    || (var c := Find(categories, (c: Category) => c.id == t.categoryId);
        c.Some? && Includes(ToLower(c.value.name), query))
  }

  predicate MatchesFilters(t: Transaction, f: GlobalFilters, categories: seq<Category>) {
    MatchesMember(t, f.selectedMemberId)
    && InDateRange(t, f.dateRange)
    && f.transactionType.Accepts(t.kind)
    && (f.searchText == "" || MatchesSearch(t, ToLower(f.searchText), categories))
  }

  function FilteredTransactions(ts: seq<Transaction>, f: GlobalFilters, categories: seq<Category>): seq<Transaction> {
    Filter(ts, t => MatchesFilters(t, f, categories))
  }

  /** A transaction is listed iff it is in the store and passes all four tests. */
  lemma FilteredExactly(ts: seq<Transaction>, f: GlobalFilters, categories: seq<Category>, t: Transaction)
    ensures t in FilteredTransactions(ts, f, categories) <==>
      t in ts
      && (f.selectedMemberId.None? || f.selectedMemberId == Some("") || t.memberId == f.selectedMemberId)
      && Millis(f.dateRange.startDate) <= Millis(t.date) <= Millis(f.dateRange.endDate)
      && (f.transactionType == AllTypes || f.transactionType == OnlyType(t.kind))
      && (f.searchText == "" || MatchesSearch(t, ToLower(f.searchText), categories))
  {
    FilterMembership(ts, t => MatchesFilters(t, f, categories), t);
  }

  /** The listed transactions keep the store's order: filtering a concatenation is
      concatenating the filtered parts. */
  lemma FilteredKeepsOrder(xs: seq<Transaction>, ys: seq<Transaction>, f: GlobalFilters, categories: seq<Category>)
    ensures FilteredTransactions(xs + ys, f, categories)
         == FilteredTransactions(xs, f, categories) + FilteredTransactions(ys, f, categories)
  {
    FilterAppend(xs, ys, t => MatchesFilters(t, f, categories));
  }

  /** A new transaction (added first) heads the list when it passes the filters. */
  lemma FilteredAfterAdd(t: Transaction, ts: seq<Transaction>, f: GlobalFilters, categories: seq<Category>)
    ensures FilteredTransactions([t] + ts, f, categories)
         == (if MatchesFilters(t, f, categories) then [t] else []) + FilteredTransactions(ts, f, categories)
  {
    assert ([t] + ts)[1..] == ts;
  }

  /** With a category that does not exist, the search looks at the description only. */
  lemma SearchWithoutCategory(t: Transaction, query: string, categories: seq<Category>)
    requires forall i :: 0 <= i < |categories| ==> categories[i].id != t.categoryId
    ensures MatchesSearch(t, query, categories) <==> Includes(ToLower(t.description), query)
  {
  }

  /** An empty search text matches every description. */
  lemma EmptyQueryMatches(t: Transaction, categories: seq<Category>)
    ensures MatchesSearch(t, "", categories)
  {
    IncludesEmpty(ToLower(t.description));
  }

  // ---------------------------------------------------------------
  // Balances and period totals
  // ---------------------------------------------------------------

  function Balance(a: BankAccount): real { a.balance }
  function Bill(c: CreditCard): real { c.currentBill }
  function Amount(t: Transaction): real { t.amount }
  predicate IsIncome(t: Transaction) { t.kind == Income }
  predicate IsExpense(t: Transaction) { t.kind == Expense }

  /** `calculateTotalBalance`: what the accounts hold minus what the cards owe. */
  function TotalBalance(accounts: seq<BankAccount>, cards: seq<CreditCard>): real {
    SumBy(accounts, Balance) - SumBy(cards, Bill)
  }

  /** Adding an account raises the total balance by its balance. */
  lemma TotalBalanceAddAccount(accounts: seq<BankAccount>, cards: seq<CreditCard>, a: BankAccount)
    ensures TotalBalance(accounts + [a], cards) == TotalBalance(accounts, cards) + a.balance
  {
    SumByAppend(accounts, [a], Balance);
  }

  /** Adding a card lowers the total balance by its current bill. */
  lemma TotalBalanceAddCard(accounts: seq<BankAccount>, cards: seq<CreditCard>, c: CreditCard)
    ensures TotalBalance(accounts, cards + [c]) == TotalBalance(accounts, cards) - c.currentBill
  {
    SumByAppend(cards, [c], Bill);
  }

  function IncomeOf(ts: seq<Transaction>): real { SumBy(Filter(ts, IsIncome), Amount) }
  function ExpensesOf(ts: seq<Transaction>): real { SumBy(Filter(ts, IsExpense), Amount) }

  /** Income and expenses split the listed amounts between them. */
  lemma {:induction false} IncomePlusExpenses(ts: seq<Transaction>)
    ensures IncomeOf(ts) + ExpensesOf(ts) == SumBy(ts, Amount)
  {
    if ts != [] {
      IncomePlusExpenses(ts[1..]);
    }
  }

  /** Period totals add up over consecutive parts of the list. */
  lemma IncomeExpensesAppend(xs: seq<Transaction>, ys: seq<Transaction>)
    ensures IncomeOf(xs + ys) == IncomeOf(xs) + IncomeOf(ys)
    ensures ExpensesOf(xs + ys) == ExpensesOf(xs) + ExpensesOf(ys)
  {
    FilterAppend(xs, ys, IsIncome);
    SumByAppend(Filter(xs, IsIncome), Filter(ys, IsIncome), Amount);
    FilterAppend(xs, ys, IsExpense);
    SumByAppend(Filter(xs, IsExpense), Filter(ys, IsExpense), Amount);
  }

  function IncomeForPeriod(ts: seq<Transaction>, f: GlobalFilters, categories: seq<Category>): real {
    IncomeOf(FilteredTransactions(ts, f, categories))
  }

  function ExpensesForPeriod(ts: seq<Transaction>, f: GlobalFilters, categories: seq<Category>): real {
    ExpensesOf(FilteredTransactions(ts, f, categories))
  }

  /** `calculateCategoryPercentage`: 0 when there is no income, else the share of income. */
  function CategoryPercentage(categoryTotal: real, income: real): (r: real)
    ensures income == 0.0 ==> r == 0.0
    ensures income != 0.0 ==> r * income == categoryTotal * 100.0
  {
    if income == 0.0 then 0.0 else categoryTotal / income * 100.0
  }

  /** `calculateSavingsRate`: 0 when there is no income, else the share of income kept. */
  function SavingsRate(income: real, expenses: real): (r: real)
    ensures income == 0.0 ==> r == 0.0
    ensures income != 0.0 ==> r * income == (income - expenses) * 100.0
  {
    if income == 0.0 then 0.0 else (income - expenses) / income * 100.0
  }

  /** With some income, what is saved and what is spent make up 100 per cent. */
  lemma SavingsAndSpendingMakeWhole(income: real, expenses: real)
    requires income != 0.0
    ensures SavingsRate(income, expenses) + CategoryPercentage(expenses, income) == 100.0
  {
  }

  // ---------------------------------------------------------------
  // calculateExpensesByCategory
  // ---------------------------------------------------------------

  predicate NoDuplicates<T(==)>(xs: seq<T>) {
    forall i, j :: 0 <= i < j < |xs| ==> xs[i] != xs[j]
  }

  /** The category ids of the transactions, each once, in order of first appearance
      (the insertion order of the grouping object's keys). */
  function DistinctCategories(ts: seq<Transaction>): (r: seq<Id>)
    ensures NoDuplicates(r)
    ensures forall k :: k in r <==> exists t :: t in ts && t.categoryId == k
  {
    if ts == [] then []
    else
      var prefix := ts[..|ts| - 1];
      var last := ts[|ts| - 1];
      var d := DistinctCategories(prefix);
      assert forall t :: t in ts <==> t in prefix || t == last by {
        assert ts == prefix + [last];
      }
      if last.categoryId in d then d else d + [last.categoryId]
  }

  /** What the transactions of one category add up to. */
  function GroupTotal(ts: seq<Transaction>, k: Id): real {
    if ts == [] then 0.0
    else (if ts[0].categoryId == k then ts[0].amount else 0.0) + GroupTotal(ts[1..], k)
  }

  lemma {:induction false} GroupTotalAppend(ts: seq<Transaction>, t: Transaction, k: Id)
    ensures GroupTotal(ts + [t], k) == GroupTotal(ts, k) + (if t.categoryId == k then t.amount else 0.0)
  {
    if ts != [] {
      assert (ts + [t])[1..] == ts[1..] + [t];
      GroupTotalAppend(ts[1..], t, k);
    }
  }

  lemma {:induction false} GroupTotalAbsent(ts: seq<Transaction>, k: Id)
    requires forall t :: t in ts ==> t.categoryId != k
    ensures GroupTotal(ts, k) == 0.0
  {
    if ts != [] {
      GroupTotalAbsent(ts[1..], k);
    }
  }

  /** The group totals of the given categories, added up. */
  function TotalsOver(keys: seq<Id>, ts: seq<Transaction>): real {
    if keys == [] then 0.0 else GroupTotal(ts, keys[0]) + TotalsOver(keys[1..], ts)
  }

  lemma {:induction false} TotalsOverAppendKey(keys: seq<Id>, k: Id, ts: seq<Transaction>)
    ensures TotalsOver(keys + [k], ts) == TotalsOver(keys, ts) + GroupTotal(ts, k)
  {
    if keys != [] {
      assert (keys + [k])[1..] == keys[1..] + [k];
      TotalsOverAppendKey(keys[1..], k, ts);
    }
  }

  lemma {:induction false} TotalsOverAppendTransaction(keys: seq<Id>, ts: seq<Transaction>, t: Transaction)
    requires NoDuplicates(keys)
    ensures TotalsOver(keys, ts + [t]) == TotalsOver(keys, ts) + (if t.categoryId in keys then t.amount else 0.0)
  {
    if keys != [] {
      assert NoDuplicates(keys[1..]);
      TotalsOverAppendTransaction(keys[1..], ts, t);
      GroupTotalAppend(ts, t, keys[0]);
      assert t.categoryId in keys <==> t.categoryId == keys[0] || t.categoryId in keys[1..];
      assert keys[0] !in keys[1..];
    }
  }

  /** Conservation: the totals of all the categories add up to the whole sum. */
  lemma {:induction false} GroupTotalsConserve(ts: seq<Transaction>)
    ensures TotalsOver(DistinctCategories(ts), ts) == SumBy(ts, Amount)
  {
    if ts != [] {
      var prefix := ts[..|ts| - 1];
      var last := ts[|ts| - 1];
      assert ts == prefix + [last];
      var d := DistinctCategories(prefix);
      GroupTotalsConserve(prefix);
      SumByAppend(prefix, [last], Amount);
      TotalsOverAppendTransaction(d, prefix, last);
      if last.categoryId !in d {
        TotalsOverAppendKey(d, last.categoryId, ts);
        GroupTotalAppend(prefix, last, last.categoryId);
        GroupTotalAbsent(prefix, last.categoryId);
      }
    }
  }

  /** `category?.name || 'Outros'`: an unknown category or an empty name reads 'Outros'. */
  function CategoryNameOr(categories: seq<Category>, id: Id, fallback: string): (r: string)
    ensures r == fallback || exists c :: c in categories && c.id == id && c.name == r
    ensures (forall i :: 0 <= i < |categories| ==> categories[i].id != id) ==> r == fallback
    ensures forall i :: (0 <= i < |categories| && categories[i].id == id
               && (forall j :: 0 <= j < i ==> categories[j].id != id)) ==>
              r == (if categories[i].name != "" then categories[i].name else fallback)
  {
    match Find(categories, (c: Category) => c.id == id)
    case Some(c) => if c.name != "" then c.name else fallback
    case None => fallback
  }

  function CategoryColor(categories: seq<Category>, id: Id): Option<string> {
    match Find(categories, (c: Category) => c.id == id)
    case Some(c) => c.color
    case None => None
  }

  /** The entry for one category id; its share of income is 0 unless income is positive. */
  function EntryFor(k: Id, expenses: seq<Transaction>, categories: seq<Category>, income: real): ExpenseByCategory {
    var total := GroupTotal(expenses, k);
    ExpenseByCategory(
      k, CategoryNameOr(categories, k, "Outros"), total,
      if income > 0.0 then total / income * 100.0 else 0.0,
      CategoryColor(categories, k))
  }

  function Entries(keys: seq<Id>, expenses: seq<Transaction>, categories: seq<Category>, income: real): (r: seq<ExpenseByCategory>)
    ensures |r| == |keys|
    ensures forall i :: 0 <= i < |keys| ==> r[i] == EntryFor(keys[i], expenses, categories, income)
  {
    if keys == [] then [] else [EntryFor(keys[0], expenses, categories, income)] + Entries(keys[1..], expenses, categories, income)
  }

  /** Each entry is the one for its own category, which is one of the keys. */
  lemma EntryOfEntries(keys: seq<Id>, expenses: seq<Transaction>, categories: seq<Category>, income: real,
                       e: ExpenseByCategory)
    requires e in Entries(keys, expenses, categories, income)
    ensures e.categoryId in keys && e == EntryFor(e.categoryId, expenses, categories, income)
  {
    var es := Entries(keys, expenses, categories, income);
    var p :| 0 <= p < |es| && es[p] == e;
    assert es[p] == EntryFor(keys[p], expenses, categories, income);
  }

  function EntryTotal(e: ExpenseByCategory): real { e.total }
  function NegatedTotal(e: ExpenseByCategory): real { -e.total }

  lemma {:induction false} EntriesSum(keys: seq<Id>, expenses: seq<Transaction>, categories: seq<Category>, income: real)
    ensures SumBy(Entries(keys, expenses, categories, income), EntryTotal) == TotalsOver(keys, expenses)
  {
    if keys != [] {
      var r := Entries(keys, expenses, categories, income);
      assert r[1..] == Entries(keys[1..], expenses, categories, income);
      EntriesSum(keys[1..], expenses, categories, income);
    }
  }

  /** `calculateExpensesByCategory`: the filtered expenses grouped by category and
      sorted by total, largest first (ties keep first-appearance order). */
  function ExpensesByCategory(ts: seq<Transaction>, f: GlobalFilters, categories: seq<Category>): seq<ExpenseByCategory> {
    var filtered := FilteredTransactions(ts, f, categories);
    var expenses := Filter(filtered, IsExpense);
    SortBy(Entries(DistinctCategories(expenses), expenses, categories, IncomeOf(filtered)), NegatedTotal)
  }

  /** A permutation of a sequence without duplicates has none either. */
  lemma PermutationNoDuplicates<T>(xs: seq<T>, ys: seq<T>)
    requires NoDuplicates(xs) && multiset(xs) == multiset(ys)
    ensures NoDuplicates(ys)
  {
    forall i, j | 0 <= i < j < |ys|
      ensures ys[i] != ys[j]
    {
      if ys[i] == ys[j] {
        var x := ys[i];
        assert ys == ys[..i] + [x] + ys[i + 1..j] + [x] + ys[j + 1..];
        assert multiset(ys)[x] >= 2;
        CountInNoDuplicates(xs, x);
        assert false;
      }
    }
  }

  lemma {:induction false} CountInNoDuplicates<T>(xs: seq<T>, x: T)
    requires NoDuplicates(xs)
    ensures multiset(xs)[x] <= 1
  {
    if xs != [] {
      assert xs == [xs[0]] + xs[1..];
      assert NoDuplicates(xs[1..]);
      CountInNoDuplicates(xs[1..], x);
      if xs[0] == x {
        assert x !in xs[1..];
      }
    }
  }

  /** All the category totals together equal the period's expenses. */
  lemma ExpensesByCategoryConserves(ts: seq<Transaction>, f: GlobalFilters, categories: seq<Category>)
    ensures SumBy(ExpensesByCategory(ts, f, categories), EntryTotal) == ExpensesForPeriod(ts, f, categories)
  {
    var filtered := FilteredTransactions(ts, f, categories);
    var expenses := Filter(filtered, IsExpense);
    var keys := DistinctCategories(expenses);
    var entries := Entries(keys, expenses, categories, IncomeOf(filtered));
    SortBySumBy(entries, NegatedTotal, EntryTotal);
    EntriesSum(keys, expenses, categories, IncomeOf(filtered));
    GroupTotalsConserve(expenses);
  }

  /** Entries come largest total first. */
  lemma ExpensesByCategoryOrdered(ts: seq<Transaction>, f: GlobalFilters, categories: seq<Category>)
    ensures var r := ExpensesByCategory(ts, f, categories);
      forall i, j :: 0 <= i < j < |r| ==> r[i].total >= r[j].total
  {
    var r := ExpensesByCategory(ts, f, categories);
    assert SortedBy(r, NegatedTotal);
    forall i, j | 0 <= i < j < |r|
      ensures r[i].total >= r[j].total
    {
      assert NegatedTotal(r[i]) <= NegatedTotal(r[j]);
    }
  }

  /** Each entry is the one for its category: that category's total among the period's
      expenses, its name or 'Outros', its colour, and its share of the period's income
      (0 unless that income is positive); and no category appears twice. */
  lemma ExpensesByCategoryEntries(ts: seq<Transaction>, f: GlobalFilters, categories: seq<Category>)
    ensures var r := ExpensesByCategory(ts, f, categories);
      var expenses := Filter(FilteredTransactions(ts, f, categories), IsExpense);
      && (forall e :: e in r ==>
            e == EntryFor(e.categoryId, expenses, categories, IncomeForPeriod(ts, f, categories))
            && e.categoryId in DistinctCategories(expenses))
      && (forall i, j :: 0 <= i < j < |r| ==> r[i].categoryId != r[j].categoryId)
  {
    var filtered := FilteredTransactions(ts, f, categories);
    var expenses := Filter(filtered, IsExpense);
    var keys := DistinctCategories(expenses);
    var income := IncomeOf(filtered);
    var entries := Entries(keys, expenses, categories, income);
    var r := SortBy(entries, NegatedTotal);
    assert r == ExpensesByCategory(ts, f, categories);
    assert income == IncomeForPeriod(ts, f, categories);
    forall e | e in r
      ensures e == EntryFor(e.categoryId, expenses, categories, income) && e.categoryId in keys
    {
      SortByMembership(entries, NegatedTotal, e);
      EntryOfEntries(keys, expenses, categories, income, e);
    }
    assert NoDuplicates(entries) by {
      forall i, j | 0 <= i < j < |entries|
        ensures entries[i] != entries[j]
      {
        assert entries[i].categoryId == keys[i] && entries[j].categoryId == keys[j];
      }
    }
    PermutationNoDuplicates(entries, r);
    forall i, j | 0 <= i < j < |r|
      ensures r[i].categoryId != r[j].categoryId
    {
      assert r[i] != r[j];
      assert r[i] in r && r[j] in r;
    }
  }

  /** Every category of the period's expenses has its entry. */
  lemma ExpensesByCategoryComplete(ts: seq<Transaction>, f: GlobalFilters, categories: seq<Category>)
    ensures var r := ExpensesByCategory(ts, f, categories);
      forall t :: t in Filter(FilteredTransactions(ts, f, categories), IsExpense) ==>
        exists e :: e in r && e.categoryId == t.categoryId
  {
    var filtered := FilteredTransactions(ts, f, categories);
    var expenses := Filter(filtered, IsExpense);
    var keys := DistinctCategories(expenses);
    var entries := Entries(keys, expenses, categories, IncomeOf(filtered));
    forall t | t in expenses
      ensures exists e :: e in SortBy(entries, NegatedTotal) && e.categoryId == t.categoryId
    {
      assert t.categoryId in keys;
      var i :| 0 <= i < |keys| && keys[i] == t.categoryId;
      SortByMembership(entries, NegatedTotal, entries[i]);
    }
  }

  // ---------------------------------------------------------------
  // getFlowChartData
  // ---------------------------------------------------------------

  const MonthLabels: seq<string> := ["Jan", "Fev", "Mar", "Abr", "Mai", "Jun", "Jul", "Ago", "Set", "Out", "Nov", "Dez"]

  /** Whether a transaction falls in a chart month: from 00:00 on the first day to
      00:00 on the last day, both included. */
  predicate InMonth(t: Transaction, ym: YearMonth)
    requires ym.Valid()
  {
    IsDateInRange(t.date, FirstDay(ym), LastDay(ym))
  }

  /** One month of the chart, over every transaction (the global filters play no part). */
  function MonthBucket(ts: seq<Transaction>, ym: YearMonth): FlowChartData
    requires ym.Valid()
  {
    var inMonth := Filter(ts, t => InMonth(t, ym));
    FlowChartData(MonthLabels[ym.month - 1], IncomeOf(inMonth), ExpensesOf(inMonth))
  }


  /** The chart's k-th month (k from 0 to 6): six months before the current one up to
      the current one. */
  function ChartMonth(now: Date, k: int): (r: YearMonth)
    ensures r.Valid()
  {
    AddMonths(MonthOf(now), k - 6)
  }

  /** The first n bars of the chart. */
  function Bars(ts: seq<Transaction>, now: Date, n: nat): (r: seq<FlowChartData>)
    ensures |r| == n
    ensures forall k :: 0 <= k < n ==> r[k] == MonthBucket(ts, ChartMonth(now, k))
  {
    if n == 0 then [] else Bars(ts, now, n - 1) + [MonthBucket(ts, ChartMonth(now, n - 1))]
  }

  function FlowChartSpec(ts: seq<Transaction>, now: Date): (r: seq<FlowChartData>)
    ensures |r| == 7
  {
    Bars(ts, now, 7)
  }

  /** `getFlowChartData`: for i from 6 down to 0, the month i months before `now`. */
  method GetFlowChartData(ts: seq<Transaction>, now: Date) returns (data: seq<FlowChartData>)
    ensures data == FlowChartSpec(ts, now)
  {
    data := [];
    var i := 6;
    while i >= 0
      invariant -1 <= i <= 6
      invariant data == Bars(ts, now, 6 - i)
    {
      var month := AddMonths(MonthOf(now), -i);
      assert month == ChartMonth(now, 6 - i);
      data := data + [MonthBucket(ts, month)];
      i := i - 1;
    }
  }

  /** The chart ends with the current month and its months follow one another. */
  lemma FlowChartMonths(ts: seq<Transaction>, now: Date)
    ensures ChartMonth(now, 6) == MonthOf(now)
    ensures FlowChartSpec(ts, now)[6].month == MonthLabels[now.month - 1]
    ensures forall k :: 0 <= k < 6 ==> AddMonths(ChartMonth(now, k), 1) == ChartMonth(now, k + 1)
  {
    IndexDeterminesMonth(ChartMonth(now, 6), MonthOf(now));
    forall k | 0 <= k < 6
      ensures AddMonths(ChartMonth(now, k), 1) == ChartMonth(now, k + 1)
    {
      AddMonthsCompose(MonthOf(now), k - 6, 1);
    }
  }

  /** A transaction counts for a chart month iff its date is in that month and not
      later than 00:00 on the month's last day. */
  lemma InMonthExactly(t: Transaction, ym: YearMonth)
    requires ym.Valid()
    ensures InMonth(t, ym) <==>
      t.date.year == ym.year && t.date.month == ym.month
      && (t.date.day < DaysInMonth(ym.year, ym.month) || t.date.msOfDay == 0)
  {
    WithinMonthBounds(t.date, ym);
  }

  /** A new income dated in the current month (before the end of its last day's first
      instant) raises the last bar's income by its amount and changes no other bar. */
  lemma FlowChartAddIncome(ts: seq<Transaction>, t: Transaction, now: Date)
    requires t.kind == Income
    requires t.date.year == now.year && t.date.month == now.month
    requires t.date.day < DaysInMonth(now.year, now.month) || t.date.msOfDay == 0
    ensures FlowChartSpec([t] + ts, now)[6]
         == FlowChartSpec(ts, now)[6].(income := FlowChartSpec(ts, now)[6].income + t.amount)
    ensures forall k :: 0 <= k < 6 ==> FlowChartSpec([t] + ts, now)[k] == FlowChartSpec(ts, now)[k]
  {
    FlowChartMonths(ts, now);
    assert ([t] + ts)[1..] == ts;
    InMonthExactly(t, ChartMonth(now, 6));
    forall k | 0 <= k < 6
      ensures !InMonth(t, ChartMonth(now, k))
    {
      InMonthExactly(t, ChartMonth(now, k));
      if InMonth(t, ChartMonth(now, k)) {
        IndexDeterminesMonth(ChartMonth(now, k), MonthOf(now));
      }
    }
  }

  // ---------------------------------------------------------------
  // getPendingExpenses
  // ---------------------------------------------------------------

  /** An unpaid expense with a due date. */
  predicate IsPendingExpense(t: Transaction) {
    t.kind == Expense && !t.isPaid && t.dueDate.Some?
  }

  function DueTime(t: Transaction): real {
    if t.dueDate.Some? then Millis(t.dueDate.value) as real else 0.0
  }

  function PendingExpenses(ts: seq<Transaction>): seq<Transaction> {
    SortBy(Filter(ts, IsPendingExpense), DueTime)
  }

  /** The pending expenses are exactly the unpaid expenses with a due date, each as
      often as in the store, soonest due first. */
  lemma PendingExpensesSpec(ts: seq<Transaction>)
    ensures var r := PendingExpenses(ts);
      && multiset(r) == multiset(Filter(ts, IsPendingExpense))
      && (forall t :: t in r <==> t in ts && t.kind == Expense && !t.isPaid && t.dueDate.Some?)
      && (forall i, j :: 0 <= i < j < |r| ==>
            Millis(r[i].dueDate.value) <= Millis(r[j].dueDate.value))
  {
    var r := PendingExpenses(ts);
    forall t
      ensures t in r <==> t in ts && t.kind == Expense && !t.isPaid && t.dueDate.Some?
    {
      SortByMembership(Filter(ts, IsPendingExpense), DueTime, t);
      FilterMembership(ts, IsPendingExpense, t);
    }
    forall i, j | 0 <= i < j < |r|
      ensures Millis(r[i].dueDate.value) <= Millis(r[j].dueDate.value)
    {
      assert r[i] in r && r[j] in r;
      assert DueTime(r[i]) <= DueTime(r[j]);
    }
  }

  /** After marking a transaction as paid, it is no longer pending. */
  lemma PaidIsNotPending(ts: seq<Transaction>, id: Id, t: Transaction)
    requires t in PendingExpenses(MarkPaid(ts, id))
    ensures t.id != id
  {
    PendingExpensesSpec(MarkPaid(ts, id));
    var ms := MarkPaid(ts, id);
    var i :| 0 <= i < |ms| && ms[i] == t;
    MarkPaidEffect(ts, id, i);
  }

  // ---------------------------------------------------------------
  // Lookups
  // ---------------------------------------------------------------

  /** `getCategoryById`: the first category with that id, if any. */
  function GetCategoryById(categories: seq<Category>, id: Id): (r: Option<Category>)
    ensures r.None? <==> forall i :: 0 <= i < |categories| ==> categories[i].id != id
    ensures r.Some? ==> exists i :: 0 <= i < |categories| && categories[i] == r.value
                          && r.value.id == id
                          && forall j :: 0 <= j < i ==> categories[j].id != id
  {
    Find(categories, (c: Category) => c.id == id)
  }

  /** `getMemberById`: the first member with that id, if any. */
  function GetMemberById(members: seq<FamilyMember>, id: Id): (r: Option<FamilyMember>)
    ensures r.None? <==> forall i :: 0 <= i < |members| ==> members[i].id != id
    ensures r.Some? ==> exists i :: 0 <= i < |members| && members[i] == r.value
                          && r.value.id == id
                          && forall j :: 0 <= j < i ==> members[j].id != id
  {
    Find(members, (m: FamilyMember) => m.id == id)
  }

  /** What `accountId` can name: a bank account or a credit card. */
  datatype Account = BankAcc(bank: BankAccount) | CardAcc(card: CreditCard)

  /** `getAccountById`: bank accounts are searched first, then cards. */
  function GetAccountById(accounts: seq<BankAccount>, cards: seq<CreditCard>, id: Id): (r: Option<Account>)
    ensures (exists i :: 0 <= i < |accounts| && accounts[i].id == id) ==>
      r.Some? && r.value.BankAcc? && r.value.bank in accounts && r.value.bank.id == id
    ensures forall i :: (0 <= i < |accounts| && accounts[i].id == id
               && (forall j :: 0 <= j < i ==> accounts[j].id != id)) ==> r == Some(BankAcc(accounts[i]))
    ensures (forall i :: 0 <= i < |accounts| ==> accounts[i].id != id) ==>
      match Find(cards, (c: CreditCard) => c.id == id)
      case Some(c) => r == Some(CardAcc(c))
      case None => r.None?
    ensures r.None? <==> (forall i :: 0 <= i < |accounts| ==> accounts[i].id != id)
                         && (forall i :: 0 <= i < |cards| ==> cards[i].id != id)
  {
    match Find(accounts, (a: BankAccount) => a.id == id)
    case Some(a) => Some(BankAcc(a))
    case None =>
      match Find(cards, (c: CreditCard) => c.id == id)
      case Some(c) => Some(CardAcc(c))
      case None => None
  }
}
