/** The dashboard header (src/components/dashboard/DashboardHeader.tsx): the search
    box, the date picker with its quick ranges, and the member avatars that select or
    clear the member filter. Each control writes the store's global filters through
    `setFilters`. */
module DashboardHeaderView {
  import opened Common
  import opened Calendar
  import opened Types
  import opened FinanceStore
  import opened QuickPeriods

  /** The member filter after clicking a member: clicking the selected member clears
      the filter, clicking any other selects it. */
  function NextSelection(current: Option<Id>, clicked: Id): (r: Option<Id>)
    ensures r.None? <==> current == Some(clicked)
    ensures r.Some? ==> r == Some(clicked)
  {
    if current == Some(clicked) then None else Some(clicked)
  }

  /** Clicking the same member twice restores a selection of that member, and
      otherwise leaves no member selected. */
  lemma ClickingTwice(current: Option<Id>, clicked: Id)
    ensures NextSelection(NextSelection(current, clicked), clicked)
        == (if current == Some(clicked) then current else None)
  {
  }

  /** The avatars shown: the first three members. */
  function VisibleMembers(members: seq<FamilyMember>): (r: seq<FamilyMember>)
    ensures |r| == if |members| < 3 then |members| else 3
    ensures r == members[..|r|]
  {
    if |members| < 3 then members else members[..3]
  }

  class DashboardHeader {
    var showDatePicker: bool

    constructor()
      ensures !showDatePicker
    {
      showDatePicker := false;
    }

    /** The date button opens and closes the picker; the overlay behind it closes it. */
    method ToggleDatePicker()
      modifies this
      ensures showDatePicker == !old(showDatePicker)
    {
      showDatePicker := !showDatePicker;
    }

    method CloseDatePicker()
      modifies this
      ensures !showDatePicker
    {
      showDatePicker := false;
    }

    /** `handleMemberClick`. */
    method MemberClick(store: Store, memberId: Id)
      modifies store
      ensures store.filters == old(store.filters).(selectedMemberId := NextSelection(old(store.filters.selectedMemberId), memberId))
      ensures store.transactions == old(store.transactions) && store.goals == old(store.goals)
      ensures store.creditCards == old(store.creditCards) && store.bankAccounts == old(store.bankAccounts)
      ensures store.familyMembers == old(store.familyMembers) && store.categories == old(store.categories)
    {
      if store.filters.selectedMemberId == Some(memberId) {
        store.SetFilters(FiltersPatch(Some(None), None, None, None));
      } else {
        store.SetFilters(FiltersPatch(Some(Some(memberId)), None, None, None));
      }
    }

    /** `handleQuickDateRange`: replaces only the date range, then closes the picker. */
    method QuickDateRange(store: Store, period: QuickPeriod, now: Date)
      modifies this, store
      ensures store.filters == old(store.filters).(dateRange := QuickRange(period, now))
      ensures !showDatePicker
      ensures store.transactions == old(store.transactions) && store.goals == old(store.goals)
      ensures store.creditCards == old(store.creditCards) && store.bankAccounts == old(store.bankAccounts)
      ensures store.familyMembers == old(store.familyMembers) && store.categories == old(store.categories)
    {
      store.SetFilters(FiltersPatch(None, Some(QuickRange(period, now)), None, None));
      showDatePicker := false;
    }

    /** The search box writes the store's search text as typed. */
    method Search(store: Store, text: string)
      modifies store
      ensures store.filters == old(store.filters).(searchText := text)
      ensures store.transactions == old(store.transactions) && store.goals == old(store.goals)
      ensures store.creditCards == old(store.creditCards) && store.bankAccounts == old(store.bankAccounts)
      ensures store.familyMembers == old(store.familyMembers) && store.categories == old(store.categories)
    {
      store.SetFilters(FiltersPatch(None, None, None, Some(text)));
    }
  }
}
