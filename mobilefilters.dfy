/** The mobile filter panel (src/components/modals/FiltersMobileModal.tsx): a local
    copy of the type, member and date filters that the user edits and then applies to
    the store in one `setFilters` call. The search text is not part of the panel. */
module MobileFilters {
  import opened Common
  import opened Calendar
  import opened Types
  import opened FinanceStore
  import opened QuickPeriods

  /** The patch "Aplicar Filtros" sends: type, member and dates, never the search text. */
  function ApplyPatch(localType: TypeFilter, localMemberId: Option<Id>, start: Date, end: Date): (r: FiltersPatch)
    ensures r.searchText.None?
  {
    FiltersPatch(Some(localMemberId), Some(DateRange(start, end)), Some(localType), None)
  }

  /** Applying what the panel copied from the filters changes nothing. */
  lemma ApplyingTheCopyChangesNothing(f: GlobalFilters)
    ensures ApplyPatch(f.transactionType, f.selectedMemberId, f.dateRange.startDate, f.dateRange.endDate).ApplyTo(f) == f
  {
  }

  /** Applying sets exactly the three edited filters and keeps the search text. */
  lemma ApplyKeepsSearch(localType: TypeFilter, localMemberId: Option<Id>, start: Date, end: Date, f: GlobalFilters)
    ensures ApplyPatch(localType, localMemberId, start, end).ApplyTo(f)
        == GlobalFilters(localMemberId, DateRange(start, end), localType, f.searchText)
  {
  }

  class FiltersMobileModal {
    var localType: TypeFilter
    var localMemberId: Option<Id>
    var localStartDate: Date
    var localEndDate: Date

    /** The panel starts from the filters in force. */
    constructor(filters: GlobalFilters)
      ensures localType == filters.transactionType && localMemberId == filters.selectedMemberId
      ensures localStartDate == filters.dateRange.startDate && localEndDate == filters.dateRange.endDate
    {
      localType := filters.transactionType;
      localMemberId := filters.selectedMemberId;
      localStartDate := filters.dateRange.startDate;
      localEndDate := filters.dateRange.endDate;
    }

    /** Opening the panel (or a change of the filters while open) copies them again. */
    method Open(filters: GlobalFilters)
      modifies this
      ensures localType == filters.transactionType && localMemberId == filters.selectedMemberId
      ensures localStartDate == filters.dateRange.startDate && localEndDate == filters.dateRange.endDate
    {
      localType := filters.transactionType;
      localMemberId := filters.selectedMemberId;
      localStartDate := filters.dateRange.startDate;
      localEndDate := filters.dateRange.endDate;
    }

    /** The type chips ("Todos", "Receitas", "Despesas"). */
    method SetType(t: TypeFilter)
      modifies this
      ensures localType == t
      ensures localMemberId == old(localMemberId)
      ensures localStartDate == old(localStartDate) && localEndDate == old(localEndDate)
    {
      localType := t;
    }

    /** The member chips; "Todos" is None. */
    method SetMember(memberId: Option<Id>)
      modifies this
      ensures localMemberId == memberId
      ensures localType == old(localType)
      ensures localStartDate == old(localStartDate) && localEndDate == old(localEndDate)
    {
      localMemberId := memberId;
    }

    /** `handleQuickPeriod`: sets only the local dates. */
    method QuickPeriod(period: QuickPeriod, now: Date)
      modifies this
      ensures DateRange(localStartDate, localEndDate) == QuickRange(period, now)
      ensures localType == old(localType) && localMemberId == old(localMemberId)
    {
      var r := QuickRange(period, now);
      localStartDate := r.startDate;
      localEndDate := r.endDate;
    }

    /** The start-date input; the date parsed from the input's text is a parameter. */
    method SetStartDate(start: Date)
      modifies this
      ensures localStartDate == start && localEndDate == old(localEndDate)
      ensures localType == old(localType) && localMemberId == old(localMemberId)
    {
      localStartDate := start;
    }

    /** The end-date input, likewise. */
    method SetEndDate(end: Date)
      modifies this
      ensures localEndDate == end && localStartDate == old(localStartDate)
      ensures localType == old(localType) && localMemberId == old(localMemberId)
    {
      localEndDate := end;
    }

    /** `handleApply`. */
    method Apply(store: Store)
      modifies store
      ensures store.filters == GlobalFilters(localMemberId, DateRange(localStartDate, localEndDate), localType,
                                             old(store.filters.searchText))
      ensures store.transactions == old(store.transactions) && store.goals == old(store.goals)
      ensures store.creditCards == old(store.creditCards) && store.bankAccounts == old(store.bankAccounts)
      ensures store.familyMembers == old(store.familyMembers) && store.categories == old(store.categories)
    {
      ApplyKeepsSearch(localType, localMemberId, localStartDate, localEndDate, store.filters);
      store.SetFilters(ApplyPatch(localType, localMemberId, localStartDate, localEndDate));
    }
  }
}
