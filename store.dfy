/** The finance store of src/contexts/FinanceContext.tsx: six collections in insertion
    order plus the global filters. Each callback replaces one collection (or the
    filters) and leaves the others alone; deleting never cascades. Fresh ids and the
    current time are parameters. */
module FinanceStore {
  import opened Common
  import opened Calendar
  import opened Types
  import opened Crud

  /** The filters the store starts with and `resetFilters` restores: no member, the
      month of `now` from 00:00 on its first day to 00:00 on its last day, every type,
      no search text. */
  function DefaultFilters(now: Date): (r: GlobalFilters)
    ensures r.selectedMemberId.None? && r.transactionType.AllTypes? && r.searchText == ""
    ensures r.dateRange.startDate.year == now.year && r.dateRange.startDate.month == now.month
    ensures r.dateRange.startDate.day == 1
    ensures r.dateRange.endDate.year == now.year && r.dateRange.endDate.month == now.month
    ensures r.dateRange.endDate.day == DaysInMonth(now.year, now.month)
    ensures Millis(r.dateRange.startDate) <= Millis(now) < Millis(r.dateRange.endDate) + DayMs
  {
    GlobalFilters(None, DateRange(GetFirstDayOfMonth(now), GetLastDayOfMonth(now)), AllTypes, "")
  }

  class Store {
    var transactions: seq<Transaction>
    var goals: seq<Goal>
    var creditCards: seq<CreditCard>
    var bankAccounts: seq<BankAccount>
    var familyMembers: seq<FamilyMember>
    var categories: seq<Category>
    var filters: GlobalFilters
    /** Computed once, when the application loads. */
    const defaultFilters: GlobalFilters

    /** The provider's initial state; `loadNow` is the time the application loaded. */
    constructor(ts: seq<Transaction>, gs: seq<Goal>, cs: seq<CreditCard>, accs: seq<BankAccount>,
                ms: seq<FamilyMember>, cats: seq<Category>, loadNow: Date)
      ensures transactions == ts && goals == gs && creditCards == cs && bankAccounts == accs
      ensures familyMembers == ms && categories == cats
      ensures defaultFilters == DefaultFilters(loadNow) && filters == defaultFilters
    {
      transactions, goals, creditCards, bankAccounts := ts, gs, cs, accs;
      familyMembers, categories := ms, cats;
      defaultFilters := DefaultFilters(loadNow);
      filters := DefaultFilters(loadNow);
    }

    // ---------- transactions ----------

    /** The new transaction goes first. */
    method AddTransaction(draft: Transaction, freshId: Id, now: Date)
      modifies this
      ensures transactions == [NewTransaction(draft, freshId, now)] + old(transactions)
      ensures goals == old(goals) && creditCards == old(creditCards) && bankAccounts == old(bankAccounts)
      ensures familyMembers == old(familyMembers) && categories == old(categories) && filters == old(filters)
    {
      transactions := [NewTransaction(draft, freshId, now)] + transactions;
    }

    method UpdateTransaction(id: Id, data: TransactionPatch)
      modifies this
      ensures transactions == UpdateById(old(transactions), TransactionId, id, data.ApplyTo)
      ensures goals == old(goals) && creditCards == old(creditCards) && bankAccounts == old(bankAccounts)
      ensures familyMembers == old(familyMembers) && categories == old(categories) && filters == old(filters)
    {
      transactions := UpdateById(transactions, TransactionId, id, data.ApplyTo);
    }

    method DeleteTransaction(id: Id)
      modifies this
      ensures transactions == DeleteById(old(transactions), TransactionId, id)
      ensures goals == old(goals) && creditCards == old(creditCards) && bankAccounts == old(bankAccounts)
      ensures familyMembers == old(familyMembers) && categories == old(categories) && filters == old(filters)
    {
      transactions := DeleteById(transactions, TransactionId, id);
    }

    method MarkTransactionAsPaid(id: Id)
      modifies this
      ensures transactions == MarkPaid(old(transactions), id)
      ensures goals == old(goals) && creditCards == old(creditCards) && bankAccounts == old(bankAccounts)
      ensures familyMembers == old(familyMembers) && categories == old(categories) && filters == old(filters)
    {
      transactions := MarkPaid(transactions, id);
    }

    // ---------- goals ----------

    /** The new goal goes last. */
    method AddGoal(draft: Goal, freshId: Id, now: Date)
      modifies this
      ensures goals == old(goals) + [NewGoal(draft, freshId, now)]
      ensures transactions == old(transactions) && creditCards == old(creditCards) && bankAccounts == old(bankAccounts)
      ensures familyMembers == old(familyMembers) && categories == old(categories) && filters == old(filters)
    {
      goals := goals + [NewGoal(draft, freshId, now)];
    }

    method UpdateGoal(id: Id, data: GoalPatch)
      modifies this
      ensures goals == UpdateById(old(goals), GoalId, id, data.ApplyTo)
      ensures transactions == old(transactions) && creditCards == old(creditCards) && bankAccounts == old(bankAccounts)
      ensures familyMembers == old(familyMembers) && categories == old(categories) && filters == old(filters)
    {
      goals := UpdateById(goals, GoalId, id, data.ApplyTo);
    }

    method DeleteGoal(id: Id)
      modifies this
      ensures goals == DeleteById(old(goals), GoalId, id)
      ensures transactions == old(transactions) && creditCards == old(creditCards) && bankAccounts == old(bankAccounts)
      ensures familyMembers == old(familyMembers) && categories == old(categories) && filters == old(filters)
    {
      goals := DeleteById(goals, GoalId, id);
    }

    // ---------- credit cards ----------

    /** The new card goes last. */
    method AddCreditCard(draft: CreditCard, freshId: Id, now: Date)
      modifies this
      ensures creditCards == old(creditCards) + [NewCreditCard(draft, freshId, now)]
      ensures transactions == old(transactions) && goals == old(goals) && bankAccounts == old(bankAccounts)
      ensures familyMembers == old(familyMembers) && categories == old(categories) && filters == old(filters)
    {
      creditCards := creditCards + [NewCreditCard(draft, freshId, now)];
    }

    method UpdateCreditCard(id: Id, data: CreditCardPatch)
      modifies this
      ensures creditCards == UpdateById(old(creditCards), CreditCardId, id, data.ApplyTo)
      ensures transactions == old(transactions) && goals == old(goals) && bankAccounts == old(bankAccounts)
      ensures familyMembers == old(familyMembers) && categories == old(categories) && filters == old(filters)
    {
      creditCards := UpdateById(creditCards, CreditCardId, id, data.ApplyTo);
    }

    method DeleteCreditCard(id: Id)
      modifies this
      ensures creditCards == DeleteById(old(creditCards), CreditCardId, id)
      ensures transactions == old(transactions) && goals == old(goals) && bankAccounts == old(bankAccounts)
      ensures familyMembers == old(familyMembers) && categories == old(categories) && filters == old(filters)
    {
      creditCards := DeleteById(creditCards, CreditCardId, id);
    }

    // ---------- bank accounts ----------

    /** The new account goes last. */
    method AddBankAccount(draft: BankAccount, freshId: Id, now: Date)
      modifies this
      ensures bankAccounts == old(bankAccounts) + [NewBankAccount(draft, freshId, now)]
      ensures transactions == old(transactions) && goals == old(goals) && creditCards == old(creditCards)
      ensures familyMembers == old(familyMembers) && categories == old(categories) && filters == old(filters)
    {
      bankAccounts := bankAccounts + [NewBankAccount(draft, freshId, now)];
    }

    method UpdateBankAccount(id: Id, data: BankAccountPatch)
      modifies this
      ensures bankAccounts == UpdateById(old(bankAccounts), BankAccountId, id, data.ApplyTo)
      ensures transactions == old(transactions) && goals == old(goals) && creditCards == old(creditCards)
      ensures familyMembers == old(familyMembers) && categories == old(categories) && filters == old(filters)
    {
      bankAccounts := UpdateById(bankAccounts, BankAccountId, id, data.ApplyTo);
    }

    method DeleteBankAccount(id: Id)
      modifies this
      ensures bankAccounts == DeleteById(old(bankAccounts), BankAccountId, id)
      ensures transactions == old(transactions) && goals == old(goals) && creditCards == old(creditCards)
      ensures familyMembers == old(familyMembers) && categories == old(categories) && filters == old(filters)
    {
      bankAccounts := DeleteById(bankAccounts, BankAccountId, id);
    }

    // ---------- family members ----------

    /** The new member goes last. */
    method AddFamilyMember(draft: FamilyMember, freshId: Id, now: Date)
      modifies this
      ensures familyMembers == old(familyMembers) + [NewFamilyMember(draft, freshId, now)]
      ensures transactions == old(transactions) && goals == old(goals) && creditCards == old(creditCards)
      ensures bankAccounts == old(bankAccounts) && categories == old(categories) && filters == old(filters)
    {
      familyMembers := familyMembers + [NewFamilyMember(draft, freshId, now)];
    }

    method UpdateFamilyMember(id: Id, data: FamilyMemberPatch)
      modifies this
      ensures familyMembers == UpdateById(old(familyMembers), FamilyMemberId, id, data.ApplyTo)
      ensures transactions == old(transactions) && goals == old(goals) && creditCards == old(creditCards)
      ensures bankAccounts == old(bankAccounts) && categories == old(categories) && filters == old(filters)
    {
      familyMembers := UpdateById(familyMembers, FamilyMemberId, id, data.ApplyTo);
    }

    method DeleteFamilyMember(id: Id)
      modifies this
      ensures familyMembers == DeleteById(old(familyMembers), FamilyMemberId, id)
      ensures transactions == old(transactions) && goals == old(goals) && creditCards == old(creditCards)
      ensures bankAccounts == old(bankAccounts) && categories == old(categories) && filters == old(filters)
    {
      familyMembers := DeleteById(familyMembers, FamilyMemberId, id);
    }

    // ---------- categories ----------

    /** The new category goes last; categories have no creation date. */
    method AddCategory(draft: Category, freshId: Id)
      modifies this
      ensures categories == old(categories) + [NewCategory(draft, freshId)]
      ensures transactions == old(transactions) && goals == old(goals) && creditCards == old(creditCards)
      ensures bankAccounts == old(bankAccounts) && familyMembers == old(familyMembers) && filters == old(filters)
    {
      categories := categories + [NewCategory(draft, freshId)];
    }

    /** Transactions that name the deleted category keep naming it. */
    method DeleteCategory(id: Id)
      modifies this
      ensures categories == DeleteById(old(categories), CategoryId, id)
      ensures transactions == old(transactions) && goals == old(goals) && creditCards == old(creditCards)
      ensures bankAccounts == old(bankAccounts) && familyMembers == old(familyMembers) && filters == old(filters)
    {
      categories := DeleteById(categories, CategoryId, id);
    }

    // ---------- filters ----------

    /** `{ ...prev, ...newFilters }`. */
    method SetFilters(newFilters: FiltersPatch)
      modifies this
      ensures filters == newFilters.ApplyTo(old(filters))
      ensures transactions == old(transactions) && goals == old(goals) && creditCards == old(creditCards)
      ensures bankAccounts == old(bankAccounts) && familyMembers == old(familyMembers) && categories == old(categories)
    {
      filters := newFilters.ApplyTo(filters);
    }

    /** Back to the filters computed at load time, not at the time of the reset. */
    method ResetFilters()
      modifies this
      ensures filters == defaultFilters
      ensures transactions == old(transactions) && goals == old(goals) && creditCards == old(creditCards)
      ensures bankAccounts == old(bankAccounts) && familyMembers == old(familyMembers) && categories == old(categories)
    {
      filters := defaultFilters;
    }
  }
}
