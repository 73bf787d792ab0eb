/** The records of src/types/index.ts, and the partial records (`Partial<T>`) that
    the store's update callbacks spread over an existing record. Every field of a
    partial record is optional; an optional field of the record itself becomes an
    `Option<Option<_>>` in its partial form, since a partial record can also set it
    to `undefined`. */
module Types {
  import opened Common
  import opened Calendar

  type Id = string

  /** A transaction is either income or an expense (`type` in the source). */
  datatype TransactionType = Income | Expense

  datatype TransactionStatus = Completed | PendingStatus

  /** The visual theme of a credit card. */
  datatype CardTheme = Black | Lime | White

  datatype FamilyMember = FamilyMember(
    id: Id,
    name: string,
    role: string,
    avatarUrl: string,
    email: Option<string>,
    monthlyIncome: Option<real>,
    createdAt: Date)

  /** `holderId` names the member who holds the account. */
  datatype BankAccount = BankAccount(
    id: Id,
    name: string,
    holderId: Id,
    balance: real,
    createdAt: Date)

  /** `closingDay` and `dueDay` are documented as days of the month (1 to 31) but the
      record does not enforce it; see `DaysOfMonthDocumented`. */
  datatype CreditCard = CreditCard(
    id: Id,
    name: string,
    holderId: Id,
    limit: real,
    currentBill: real,
    closingDay: int,
    dueDay: int,
    theme: CardTheme,
    lastDigits: Option<string>,
    createdAt: Date)

  /** The one record without a creation date. */
  datatype Category = Category(
    id: Id,
    name: string,
    kind: TransactionType,
    color: Option<string>)

  /** `accountId` names a bank account or a credit card; `memberId` None stands for the
      whole family; `installments` 1 means paid at once. */
  datatype Transaction = Transaction(
    id: Id,
    kind: TransactionType,
    description: string,
    amount: real,
    categoryId: Id,
    accountId: Id,
    memberId: Option<Id>,
    date: Date,
    dueDate: Option<Date>,
    installments: int,
    currentInstallment: Option<int>,
    status: TransactionStatus,
    isRecurring: bool,
    isPaid: bool,
    createdAt: Date)

  /** `memberId` None stands for the whole family. */
  datatype Goal = Goal(
    id: Id,
    name: string,
    description: Option<string>,
    targetAmount: real,
    currentAmount: real,
    deadline: Option<Date>,
    memberId: Option<Id>,
    iconName: Option<string>,
    color: Option<string>,
    createdAt: Date)

  /** The type filter: every transaction, or one type only. */
  datatype TypeFilter = AllTypes | OnlyType(only: TransactionType) {
    /** A type passes the filter when the filter is "all" or names that type. */
    predicate Accepts(k: TransactionType) {
      AllTypes? || only == k
    }
  }

  datatype DateRange = DateRange(startDate: Date, endDate: Date)

  datatype GlobalFilters = GlobalFilters(
    selectedMemberId: Option<Id>,
    dateRange: DateRange,
    transactionType: TypeFilter,
    searchText: string)

  datatype ExpenseByCategory = ExpenseByCategory(
    categoryId: Id,
    categoryName: string,
    total: real,
    percentage: real,
    color: Option<string>)

  datatype FlowChartData = FlowChartData(month: string, income: real, expense: real)

  /** The card's documented day-of-month range (not enforced by the record). */
  predicate DaysOfMonthDocumented(c: CreditCard) {
    1 <= c.closingDay <= 31 && 1 <= c.dueDay <= 31
  }

  // ---------------------------------------------------------------
  // Partial records: `{ ...record, ...partial }`
  // ---------------------------------------------------------------

  function Override<T>(current: T, given: Option<T>): T {
    match given
    case None => current
    case Some(v) => v
  }

  datatype TransactionPatch = TransactionPatch(
    id: Option<Id>,
    kind: Option<TransactionType>,
    description: Option<string>,
    amount: Option<real>,
    categoryId: Option<Id>,
    accountId: Option<Id>,
    memberId: Option<Option<Id>>,
    date: Option<Date>,
    dueDate: Option<Option<Date>>,
    installments: Option<int>,
    currentInstallment: Option<Option<int>>,
    status: Option<TransactionStatus>,
    isRecurring: Option<bool>,
    isPaid: Option<bool>,
    createdAt: Option<Date>) {
    /** `{ ...t, ...p }`: every field the patch gives replaces the record's. */
    function ApplyTo(t: Transaction): Transaction {
      Transaction(
        Override(t.id, id), Override(t.kind, kind), Override(t.description, description),
        Override(t.amount, amount), Override(t.categoryId, categoryId),
        Override(t.accountId, accountId), Override(t.memberId, memberId),
        Override(t.date, date), Override(t.dueDate, dueDate),
        Override(t.installments, installments),
        Override(t.currentInstallment, currentInstallment), Override(t.status, status),
        Override(t.isRecurring, isRecurring), Override(t.isPaid, isPaid),
        Override(t.createdAt, createdAt))
    }
  }

  const NoTransactionChange :=
    TransactionPatch(None, None, None, None, None, None, None, None, None, None, None, None, None, None, None)

  datatype GoalPatch = GoalPatch(
    id: Option<Id>,
    name: Option<string>,
    description: Option<Option<string>>,
    targetAmount: Option<real>,
    currentAmount: Option<real>,
    deadline: Option<Option<Date>>,
    memberId: Option<Option<Id>>,
    iconName: Option<Option<string>>,
    color: Option<Option<string>>,
    createdAt: Option<Date>) {
    function ApplyTo(g: Goal): Goal {
      Goal(
        Override(g.id, id), Override(g.name, name), Override(g.description, description),
        Override(g.targetAmount, targetAmount), Override(g.currentAmount, currentAmount),
        Override(g.deadline, deadline), Override(g.memberId, memberId),
        Override(g.iconName, iconName), Override(g.color, color),
        Override(g.createdAt, createdAt))
    }
  }

  datatype CreditCardPatch = CreditCardPatch(
    id: Option<Id>,
    name: Option<string>,
    holderId: Option<Id>,
    limit: Option<real>,
    currentBill: Option<real>,
    closingDay: Option<int>,
    dueDay: Option<int>,
    theme: Option<CardTheme>,
    lastDigits: Option<Option<string>>,
    createdAt: Option<Date>) {
    function ApplyTo(c: CreditCard): CreditCard {
      CreditCard(
        Override(c.id, id), Override(c.name, name), Override(c.holderId, holderId),
        Override(c.limit, limit), Override(c.currentBill, currentBill),
        Override(c.closingDay, closingDay), Override(c.dueDay, dueDay),
        Override(c.theme, theme), Override(c.lastDigits, lastDigits),
        Override(c.createdAt, createdAt))
    }
  }

  datatype BankAccountPatch = BankAccountPatch(
    id: Option<Id>,
    name: Option<string>,
    holderId: Option<Id>,
    balance: Option<real>,
    createdAt: Option<Date>) {
    function ApplyTo(a: BankAccount): BankAccount {
      BankAccount(
        Override(a.id, id), Override(a.name, name), Override(a.holderId, holderId),
        Override(a.balance, balance), Override(a.createdAt, createdAt))
    }
  }

  datatype FamilyMemberPatch = FamilyMemberPatch(
    id: Option<Id>,
    name: Option<string>,
    role: Option<string>,
    avatarUrl: Option<string>,
    email: Option<Option<string>>,
    monthlyIncome: Option<Option<real>>,
    createdAt: Option<Date>) {
    function ApplyTo(m: FamilyMember): FamilyMember {
      FamilyMember(
        Override(m.id, id), Override(m.name, name), Override(m.role, role),
        Override(m.avatarUrl, avatarUrl), Override(m.email, email),
        Override(m.monthlyIncome, monthlyIncome), Override(m.createdAt, createdAt))
    }
  }

  datatype FiltersPatch = FiltersPatch(
    selectedMemberId: Option<Option<Id>>,
    dateRange: Option<DateRange>,
    transactionType: Option<TypeFilter>,
    searchText: Option<string>) {
    function ApplyTo(f: GlobalFilters): GlobalFilters {
      GlobalFilters(
        Override(f.selectedMemberId, selectedMemberId), Override(f.dateRange, dateRange),
        Override(f.transactionType, transactionType), Override(f.searchText, searchText))
    }
  }

  /** A patch that gives no field leaves the record as it was. */
  lemma EmptyTransactionPatch(t: Transaction)
    ensures NoTransactionChange.ApplyTo(t) == t
  {
  }

  /** Spreading the same partial record twice is the same as spreading it once. */
  lemma TransactionPatchIdempotent(p: TransactionPatch, t: Transaction)
    ensures p.ApplyTo(p.ApplyTo(t)) == p.ApplyTo(t)
  {
  }

  /** A later spread wins: two partial records in a row, where the second gives every
      field the first gives, equal the second alone. */
  lemma FiltersPatchLaterWins(p: FiltersPatch, q: FiltersPatch, f: GlobalFilters)
    requires p.selectedMemberId.Some? ==> q.selectedMemberId.Some?
    requires p.dateRange.Some? ==> q.dateRange.Some?
    requires p.transactionType.Some? ==> q.transactionType.Some?
    requires p.searchText.Some? ==> q.searchText.Some?
    ensures q.ApplyTo(p.ApplyTo(f)) == q.ApplyTo(f)
  {
  }
}
