/** The two transaction listings: the dashboard's table
    (src/components/dashboard/TransactionsTable.tsx) and the transactions page
    (src/pages/Transacoes.tsx). Both narrow the store's filtered list with filters of
    their own, page the result, and name each row's account and instalment. */
module TransactionViews {
  import opened Common
  import opened Types
  import opened Queries
  import opened Validation
  import opened Paging

  // ---------------------------------------------------------------
  // Local filters
  // ---------------------------------------------------------------

  /** The table's own test: the search text, when not empty, occurs (ignoring case) in
      the description or the category name, and the type filter accepts the row. */
  predicate TableMatches(t: Transaction, search: string, localType: TypeFilter, categories: seq<Category>) {
    (search == "" || MatchesSearch(t, ToLower(search), categories))
    && localType.Accepts(t.kind)
  }

  function TableRows(listed: seq<Transaction>, search: string, localType: TypeFilter, categories: seq<Category>): seq<Transaction> {
    Filter(listed, t => TableMatches(t, search, localType, categories))
  }

  /** The page's test: the table's two tests, then the category, account and member,
      each skipped while its selection is empty. A row without a member never passes
      a member selection. */
  predicate PageMatches(t: Transaction, search: string, localType: TypeFilter,
                        categoryId: Id, accountId: Id, memberId: Id, categories: seq<Category>) {
    TableMatches(t, search, localType, categories)
    && MatchesSelections(t, categoryId, accountId, memberId)
  }

  /** The category, account and member selections, each skipped while empty. */
  predicate MatchesSelections(t: Transaction, categoryId: Id, accountId: Id, memberId: Id) {
    && (categoryId == "" || t.categoryId == categoryId)
    && (accountId == "" || t.accountId == accountId)
    && (memberId == "" || t.memberId == Some(memberId))
  }

  function PageRows(listed: seq<Transaction>, search: string, localType: TypeFilter,
                    categoryId: Id, accountId: Id, memberId: Id, categories: seq<Category>): seq<Transaction> {
    Filter(listed, t => PageMatches(t, search, localType, categoryId, accountId, memberId, categories))
  }

  /** The table lists a row of the store's list iff the row passes the store's four
      filters and the table's two; the rows keep the store's order, since the listing of
      a concatenation is the concatenation of the listings. */
  lemma TableRowsNarrowStore(ts: seq<Transaction>, xs: seq<Transaction>, f: GlobalFilters,
                             search: string, localType: TypeFilter, categories: seq<Category>, t: Transaction)
    ensures t in TableRows(FilteredTransactions(ts, f, categories), search, localType, categories)
        <==> t in ts && MatchesFilters(t, f, categories) && TableMatches(t, search, localType, categories)
    ensures TableRows(ts + xs, search, localType, categories)
         == TableRows(ts, search, localType, categories) + TableRows(xs, search, localType, categories)
  {
    var listed := FilteredTransactions(ts, f, categories);
    FilterMembership(listed, u => TableMatches(u, search, localType, categories), t);
    FilterMembership(ts, u => MatchesFilters(u, f, categories), t);
    FilterAppend(ts, xs, u => TableMatches(u, search, localType, categories));
  }

  /** With an empty search and "all" types, the table shows the store's list as is. */
  lemma TableWithoutLocalFilters(listed: seq<Transaction>, categories: seq<Category>)
    ensures TableRows(listed, "", AllTypes, categories) == listed
  {
    FilterAllPass(listed, u => TableMatches(u, "", AllTypes, categories));
  }

  /** The page lists a row of the store's list iff the row passes the store's filters
      and all five of its own; the rows keep the store's order. */
  lemma PageRowsNarrowStore(ts: seq<Transaction>, xs: seq<Transaction>, f: GlobalFilters,
                            search: string, localType: TypeFilter, categoryId: Id, accountId: Id, memberId: Id,
                            categories: seq<Category>, t: Transaction)
    ensures t in PageRows(FilteredTransactions(ts, f, categories), search, localType, categoryId, accountId, memberId, categories)
        <==> t in ts && MatchesFilters(t, f, categories)
             && PageMatches(t, search, localType, categoryId, accountId, memberId, categories)
    ensures PageRows(ts + xs, search, localType, categoryId, accountId, memberId, categories)
         == PageRows(ts, search, localType, categoryId, accountId, memberId, categories)
          + PageRows(xs, search, localType, categoryId, accountId, memberId, categories)
  {
    var listed := FilteredTransactions(ts, f, categories);
    var p := u => PageMatches(u, search, localType, categoryId, accountId, memberId, categories);
    FilterMembership(listed, p, t);
    FilterMembership(ts, u => MatchesFilters(u, f, categories), t);
    FilterAppend(ts, xs, p);
  }

  /** The page's rows are the table's rows narrowed further by category, account and
      member. */
  lemma PageRowsWithinTableRows(listed: seq<Transaction>, search: string, localType: TypeFilter,
                                categoryId: Id, accountId: Id, memberId: Id, categories: seq<Category>)
    ensures PageRows(listed, search, localType, categoryId, accountId, memberId, categories)
         == Filter(TableRows(listed, search, localType, categories),
                   t => MatchesSelections(t, categoryId, accountId, memberId))
  {
    var p := t => TableMatches(t, search, localType, categories);
    var q := t => MatchesSelections(t, categoryId, accountId, memberId);
    assert TableRows(listed, search, localType, categories) == Filter(listed, p);
    FilterFilter(listed, p, q,
                 t => PageMatches(t, search, localType, categoryId, accountId, memberId, categories));
  }

  // ---------------------------------------------------------------
  // The page's totals
  // ---------------------------------------------------------------

  datatype Totals = Totals(income: real, expenses: real, difference: real)

  /** The income, the expenses and their difference over the listed rows. */
  function PageTotals(rows: seq<Transaction>): (r: Totals)
    ensures r.difference == r.income - r.expenses
  {
    var income := IncomeOf(rows);
    var expenses := ExpensesOf(rows);
    Totals(income, expenses, income - expenses)
  }

  function SignedAmount(t: Transaction): real {
    if t.kind == Income then t.amount else -t.amount
  }

  /** The difference is the rows' amounts summed with expenses counted negative, and
      income and expenses together make up every listed amount. */
  lemma {:induction false} DifferenceIsSignedSum(rows: seq<Transaction>)
    ensures PageTotals(rows).difference == SumBy(rows, SignedAmount)
    ensures PageTotals(rows).income + PageTotals(rows).expenses == SumBy(rows, Amount)
  {
    IncomePlusExpenses(rows);
    if rows != [] {
      DifferenceIsSignedSum(rows[1..]);
      assert rows == [rows[0]] + rows[1..];
      IncomeExpensesAppend([rows[0]], rows[1..]);
    }
  }

  // ---------------------------------------------------------------
  // Row cells
  // ---------------------------------------------------------------

  /** `getAccountName`: the bank account's name, else the card's name, else
      'Desconhecido'. */
  function AccountName(accountId: Id, accounts: seq<BankAccount>, cards: seq<CreditCard>): (r: string)
    ensures match GetAccountById(accounts, cards, accountId)
      case Some(BankAcc(a)) => r == a.name
      case Some(CardAcc(c)) => r == c.name
      case None => r == "Desconhecido"
  {
    match Find(accounts, (a: BankAccount) => a.id == accountId)
    case Some(a) => a.name
    case None =>
      match Find(cards, (c: CreditCard) => c.id == accountId)
      case Some(c) => c.name
      case None => "Desconhecido"
  }

  /** An id shared by an account and a card names the account. */
  lemma AccountNamePrefersAccount(accountId: Id, accounts: seq<BankAccount>, cards: seq<CreditCard>, i: nat)
    requires i < |accounts| && accounts[i].id == accountId
    ensures exists a :: a in accounts && a.id == accountId && AccountName(accountId, accounts, cards) == a.name
  {
  }

  /** `t.currentInstallment || 1`: a missing or zero instalment number reads 1. */
  function ShownInstallment(t: Transaction): int {
    match t.currentInstallment
    case Some(k) => if k != 0 then k else 1
    case None => 1
  }

  /** The instalment cell: "k/n" for a purchase in more than one instalment, else "-". */
  function InstallmentCell(t: Transaction): (r: string)
    ensures r == "-" <==> t.installments <= 1
    ensures t.installments > 1 ==> '/' in r
  {
    if t.installments > 1 then
      var r := IntToString(ShownInstallment(t)) + "/" + IntToString(t.installments);
      assert r[|IntToString(ShownInstallment(t))|] == '/';
      r
    else "-"
  }

  /** Reading the cell back: the digits before the slash are the instalment shown and
      the digits after it are the instalment count. */
  lemma InstallmentCellReadsBack(t: Transaction)
    requires t.installments > 1 && ShownInstallment(t) >= 0
    ensures var r := InstallmentCell(t);
      var slash := IndexOf(r, '/');
      && 0 <= slash
      && DigitsValue(r[..slash]) == ShownInstallment(t)
      && DigitsValue(r[slash + 1..]) == t.installments
  {
    var a := NatToString(ShownInstallment(t));
    var b := NatToString(t.installments);
    var r := InstallmentCell(t);
    assert r == a + "/" + b;
    assert '/' !in a by {
      forall i | 0 <= i < |a| ensures a[i] != '/' { assert IsDigit(a[i]); }
    }
    IndexOfAfterPrefix(a, '/', b);
    assert r[..|a|] == a;
    assert r[|a| + 1..] == b;
    NatToStringRoundTrip(ShownInstallment(t));
    NatToStringRoundTrip(t.installments);
  }

  /** The missing or zero instalment number is shown as the first. */
  lemma ShownInstallmentDefaults(t: Transaction)
    ensures ShownInstallment(t) == 1 <==> t.currentInstallment.None? || t.currentInstallment == Some(0) || t.currentInstallment == Some(1)
    ensures t.currentInstallment.Some? && t.currentInstallment.value != 0 ==> ShownInstallment(t) == t.currentInstallment.value
  {
  }

  /** `compact ? 5 : 10`. */
  function TablePageSize(compact: bool): (r: nat)
    ensures r > 0
    ensures compact <==> r == 5
  {
    if compact then 5 else 10
  }

  const PageSize: nat := 10

  // ---------------------------------------------------------------
  // The dashboard table's state
  // ---------------------------------------------------------------

  class TransactionsTable {
    const compact: bool
    var localSearch: string
    var localType: TypeFilter
    var currentPage: int

    /** No search, every type, first page. */
    constructor(compact: bool)
      ensures this.compact == compact
      ensures localSearch == "" && localType == AllTypes && currentPage == 1
    {
      this.compact := compact;
      localSearch := "";
      localType := AllTypes;
      currentPage := 1;
    }

    /** The rows the table lists, from the store's filtered list. */
    function Rows(listed: seq<Transaction>, categories: seq<Category>): seq<Transaction>
      reads this
    {
      TableRows(listed, localSearch, localType, categories)
    }

    function TotalPagesOf(listed: seq<Transaction>, categories: seq<Category>): nat
      reads this
    {
      TotalPages(|Rows(listed, categories)|, TablePageSize(compact))
    }

    /** The rows of the current page. */
    function Shown(listed: seq<Transaction>, categories: seq<Category>): seq<Transaction>
      reads this
      requires currentPage >= 1
    {
      PageSlice(Rows(listed, categories), currentPage, TablePageSize(compact))
    }

    /** Typing in the search box sets the search and goes back to the first page. */
    method SetSearch(search: string)
      modifies this
      ensures localSearch == search && currentPage == 1 && localType == old(localType)
    {
      localSearch := search;
      currentPage := 1;
    }

    /** Choosing a type sets it and goes back to the first page. */
    method SetType(localType: TypeFilter)
      modifies this
      ensures this.localType == localType && currentPage == 1 && localSearch == old(localSearch)
    {
      this.localType := localType;
      currentPage := 1;
    }

    /** `handlePageChange`: the page buttons set the page they name. */
    method ChangePage(page: int)
      modifies this
      ensures currentPage == page && localSearch == old(localSearch) && localType == old(localType)
    {
      currentPage := page;
    }

    /** The page list drawn under the table. */
    method PageButtons(listed: seq<Transaction>, categories: seq<Category>) returns (pages: seq<PageItem>)
      ensures pages == Pagination(currentPage, TotalPagesOf(listed, categories))
    {
      pages := RenderPagination(currentPage, TotalPagesOf(listed, categories));
    }
  }

  // ---------------------------------------------------------------
  // The transactions page's state
  // ---------------------------------------------------------------

  class TransactionsPage {
    var localSearch: string
    var localType: TypeFilter
    var localCategoryId: Id
    var localAccountId: Id
    var localMemberId: Id
    var currentPage: int

    /** Whether the reset button shows: some local filter is set. */
    predicate AnyFilterActive()
      reads this
    {
      localSearch != "" || localType != AllTypes || localCategoryId != ""
      || localAccountId != "" || localMemberId != ""
    }

    constructor()
      ensures !AnyFilterActive() && currentPage == 1
    {
      localSearch := "";
      localType := AllTypes;
      localCategoryId := "";
      localAccountId := "";
      localMemberId := "";
      currentPage := 1;
    }

    function Rows(listed: seq<Transaction>, categories: seq<Category>): seq<Transaction>
      reads this
    {
      PageRows(listed, localSearch, localType, localCategoryId, localAccountId, localMemberId, categories)
    }

    function TotalPagesOf(listed: seq<Transaction>, categories: seq<Category>): nat
      reads this
    {
      TotalPages(|Rows(listed, categories)|, PageSize)
    }

    function Shown(listed: seq<Transaction>, categories: seq<Category>): seq<Transaction>
      reads this
      requires currentPage >= 1
    {
      PageSlice(Rows(listed, categories), currentPage, PageSize)
    }

    /** With no local filter set, the page lists the store's list as is. */
    lemma RowsWithoutFilters(listed: seq<Transaction>, categories: seq<Category>)
      requires !AnyFilterActive()
      ensures Rows(listed, categories) == listed
    {
      FilterAllPass(listed, u => PageMatches(u, "", AllTypes, "", "", "", categories));
    }

    /** Each filter control sets its own filter and goes back to the first page. */
    method SetSearch(search: string)
      modifies this
      ensures localSearch == search && currentPage == 1
      ensures localType == old(localType) && localCategoryId == old(localCategoryId)
      ensures localAccountId == old(localAccountId) && localMemberId == old(localMemberId)
    {
      localSearch := search;
      currentPage := 1;
    }

    method SetType(localType: TypeFilter)
      modifies this
      ensures this.localType == localType && currentPage == 1
      ensures localSearch == old(localSearch) && localCategoryId == old(localCategoryId)
      ensures localAccountId == old(localAccountId) && localMemberId == old(localMemberId)
    {
      this.localType := localType;
      currentPage := 1;
    }

    method SetCategory(categoryId: Id)
      modifies this
      ensures localCategoryId == categoryId && currentPage == 1
      ensures localSearch == old(localSearch) && localType == old(localType)
      ensures localAccountId == old(localAccountId) && localMemberId == old(localMemberId)
    {
      localCategoryId := categoryId;
      currentPage := 1;
    }

    method SetAccount(accountId: Id)
      modifies this
      ensures localAccountId == accountId && currentPage == 1
      ensures localSearch == old(localSearch) && localType == old(localType)
      ensures localCategoryId == old(localCategoryId) && localMemberId == old(localMemberId)
    {
      localAccountId := accountId;
      currentPage := 1;
    }

    method SetMember(memberId: Id)
      modifies this
      ensures localMemberId == memberId && currentPage == 1
      ensures localSearch == old(localSearch) && localType == old(localType)
      ensures localCategoryId == old(localCategoryId) && localAccountId == old(localAccountId)
    {
      localMemberId := memberId;
      currentPage := 1;
    }

    /** `resetFilters`: every local filter cleared, first page. */
    method ResetFilters()
      modifies this
      ensures !AnyFilterActive() && currentPage == 1
      ensures localSearch == "" && localType == AllTypes
      ensures localCategoryId == "" && localAccountId == "" && localMemberId == ""
    {
      localSearch := "";
      localType := AllTypes;
      localCategoryId := "";
      localAccountId := "";
      localMemberId := "";
      currentPage := 1;
    }

    /** The previous-page button. */
    method Previous()
      modifies this
      ensures currentPage == PreviousPage(old(currentPage))
      ensures localSearch == old(localSearch) && localType == old(localType)
      ensures localCategoryId == old(localCategoryId) && localAccountId == old(localAccountId)
      ensures localMemberId == old(localMemberId)
    {
      currentPage := PreviousPage(currentPage);
    }

    /** The next-page button, given the page count. */
    method Next(total: nat)
      modifies this
      ensures currentPage == NextPage(old(currentPage), total)
      ensures localSearch == old(localSearch) && localType == old(localType)
      ensures localCategoryId == old(localCategoryId) && localAccountId == old(localAccountId)
      ensures localMemberId == old(localMemberId)
    {
      currentPage := NextPage(currentPage, total);
    }

    /** A window button sets the page it names. */
    method GoTo(page: int)
      modifies this
      ensures currentPage == page
      ensures localSearch == old(localSearch) && localType == old(localType)
      ensures localCategoryId == old(localCategoryId) && localAccountId == old(localAccountId)
      ensures localMemberId == old(localMemberId)
    {
      currentPage := page;
    }
  }
}
