/** The credit-card page (src/pages/Cartoes.tsx) and the card details window
    (src/components/modals/CardDetailsModal.tsx): each card's usage, available limit and
    holder; the listing by largest bill first, which sorts the store's own card array;
    and the details of the selected card with its most recent expenses. */
module CardViews {
  import opened Common
  import opened Types
  import opened Sorting
  import opened Queries
  import opened FinanceStore
  import opened Progress

  /** `getUsagePercentage(card.currentBill, card.limit)`. */
  function Usage(card: CreditCard): JsNumber {
    RoundedPercent(card.currentBill, card.limit)
  }

  /** `card.limit - card.currentBill`: what is left to spend, negative once the bill
      exceeds the limit. */
  function AvailableLimit(card: CreditCard): (r: real)
    ensures r + card.currentBill == card.limit
    ensures r < 0.0 <==> card.currentBill > card.limit
  {
    card.limit - card.currentBill
  }

  /** A card with a positive limit and a bill within it shows a usage between 0 and 100
      percent and a non-negative available limit; one over its limit shows at least 100
      percent and a negative available limit. */
  lemma UsageAgreesWithAvailable(card: CreditCard)
    requires card.limit > 0.0 && card.currentBill >= 0.0
    ensures AvailableLimit(card) >= 0.0 ==> 0.0 <= Usage(card).value <= 100.0
    ensures AvailableLimit(card) < 0.0 ==> Usage(card).value >= 100.0
  {
    if AvailableLimit(card) >= 0.0 {
      RoundedPercentBetween(card.currentBill, card.limit);
    } else {
      RoundedPercentMonotone(card.limit, card.currentBill, card.limit);
      WholeIsHundredPercent(card.limit);
    }
  }

  /** `holder?.name || 'Sem titular'`: a missing holder, or one with an empty name, reads
      'Sem titular'. */
  function HolderLabel(members: seq<FamilyMember>, holderId: Id): (r: string)
    ensures r != ""
    ensures (forall i :: 0 <= i < |members| ==> members[i].id != holderId) ==> r == "Sem titular"
    ensures r == "Sem titular" || exists m :: m in members && m.id == holderId && m.name == r
    ensures forall i :: (0 <= i < |members| && members[i].id == holderId
               && (forall j :: 0 <= j < i ==> members[j].id != holderId)) ==>
              r == (if members[i].name != "" then members[i].name else "Sem titular")
  {
    match GetMemberById(members, holderId)
    case Some(m) => if m.name != "" then m.name else "Sem titular"
    case None => "Sem titular"
  }

  /** The comparator `b.currentBill - a.currentBill` orders by the negated bill. */
  function NegatedBill(card: CreditCard): real {
    -card.currentBill
  }

  /** The listing order: the same cards, largest bill first. */
  function ByLargestBill(cards: seq<CreditCard>): seq<CreditCard> {
    SortBy(cards, NegatedBill)
  }

  /** The listing holds each card as often as the store does, with non-increasing
      bills, and listing it again changes nothing. */
  lemma ByLargestBillSpec(cards: seq<CreditCard>)
    ensures multiset(ByLargestBill(cards)) == multiset(cards)
    ensures forall i, j :: 0 <= i < j < |ByLargestBill(cards)| ==>
              ByLargestBill(cards)[i].currentBill >= ByLargestBill(cards)[j].currentBill
    ensures ByLargestBill(ByLargestBill(cards)) == ByLargestBill(cards)
  {
    var r := ByLargestBill(cards);
    forall i, j | 0 <= i < j < |r|
      ensures r[i].currentBill >= r[j].currentBill
    {
      assert NegatedBill(r[i]) <= NegatedBill(r[j]);
    }
    SortBySorted(r, NegatedBill);
  }

  /** `creditCards.sort(...)` while rendering: the store's card array is reordered in
      place and the page lists it in that order. */
  method ListCards(store: Store) returns (shown: seq<CreditCard>)
    modifies store
    ensures shown == store.creditCards == ByLargestBill(old(store.creditCards))
    ensures store.transactions == old(store.transactions) && store.goals == old(store.goals)
    ensures store.bankAccounts == old(store.bankAccounts) && store.familyMembers == old(store.familyMembers)
    ensures store.categories == old(store.categories) && store.filters == old(store.filters)
  {
    store.creditCards := ByLargestBill(store.creditCards);
    shown := store.creditCards;
  }

  /** An id is truthy when present and not the empty string. */
  predicate Truthy(id: Option<Id>) {
    id.Some? && id.value != ""
  }

  /** The page's own state: whether the new-card window is open and which card's
      details are shown. */
  class CardsPage {
    var showAddModal: bool
    var selectedCardId: Option<Id>

    constructor()
      ensures !showAddModal && selectedCardId.None?
    {
      showAddModal := false;
      selectedCardId := None;
    }

    /** "Novo Cartão" and "Cadastrar Primeiro Cartão" open the new-card window. */
    method OpenAddModal()
      modifies this
      ensures showAddModal && selectedCardId == old(selectedCardId)
    {
      showAddModal := true;
    }

    method CloseAddModal()
      modifies this
      ensures !showAddModal && selectedCardId == old(selectedCardId)
    {
      showAddModal := false;
    }

    /** Clicking a card or its "Ver Detalhes" button selects it. */
    method SelectCard(id: Id)
      modifies this
      ensures selectedCardId == Some(id) && showAddModal == old(showAddModal)
    {
      selectedCardId := Some(id);
    }

    /** Closing the details window clears the selection. */
    method CloseDetails()
      modifies this
      ensures selectedCardId.None? && showAddModal == old(showAddModal)
    {
      selectedCardId := None;
    }

    /** The details window is open for a truthy selection. */
    predicate DetailsOpen()
      reads this
    {
      Truthy(selectedCardId)
    }
  }

  // ---------------------------------------------------------------
  // Card details window
  // ---------------------------------------------------------------

  /** An expense charged to the card. */
  predicate IsExpenseOn(cardId: Id, t: Transaction) {
    t.accountId == cardId && t.kind == Expense
  }

  /** `transactions.filter(t => t.accountId === cardId && t.type === 'expense')`. */
  function CardExpenses(transactions: seq<Transaction>, cardId: Id): (r: seq<Transaction>)
    ensures forall t :: t in r <==> t in transactions && IsExpenseOn(cardId, t)
  {
    var r := Filter(transactions, (t: Transaction) => IsExpenseOn(cardId, t));
    assert forall t :: t in r <==> t in transactions && IsExpenseOn(cardId, t) by {
      forall t ensures t in r <==> t in transactions && IsExpenseOn(cardId, t) {
        FilterMembership(transactions, (t: Transaction) => IsExpenseOn(cardId, t), t);
      }
    }
    r
  }

  /** `.slice(0, 10)`: the first ten of the card's expenses in store order, or all of
      them when there are fewer. */
  function RecentCardExpenses(transactions: seq<Transaction>, cardId: Id): (r: seq<Transaction>)
    ensures |r| == if |CardExpenses(transactions, cardId)| < 10 then |CardExpenses(transactions, cardId)| else 10
    ensures r == CardExpenses(transactions, cardId)[..|r|]
    ensures forall t :: t in r ==> t in transactions && IsExpenseOn(cardId, t)
  {
    var all := CardExpenses(transactions, cardId);
    if |all| < 10 then all else all[..10]
  }

  /** What the details window shows for a card. */
  datatype CardDetailsView = CardDetailsView(
    card: CreditCard,
    holder: Option<FamilyMember>,
    available: real,
    usage: JsNumber,
    recentExpenses: seq<Transaction>)

  /** The window renders nothing when closed, when no card id is given, or when no card
      has that id; otherwise it shows the first card with that id. */
  function CardDetails(isOpen: bool, cardId: Option<Id>, cards: seq<CreditCard>,
                       members: seq<FamilyMember>, transactions: seq<Transaction>): (r: Option<CardDetailsView>)
    ensures r.None? <==> !isOpen || !Truthy(cardId) || forall i :: 0 <= i < |cards| ==> cards[i].id != cardId.value
    ensures r.Some? ==> exists i :: 0 <= i < |cards| && cards[i] == r.value.card && cards[i].id == cardId.value
                          && forall j :: 0 <= j < i ==> cards[j].id != cardId.value
    ensures r.Some? ==> && r.value.available == AvailableLimit(r.value.card)
                        && r.value.usage == Usage(r.value.card)
                        && r.value.holder == GetMemberById(members, r.value.card.holderId)
                        && r.value.recentExpenses == RecentCardExpenses(transactions, cardId.value)
  {
    if !isOpen || !Truthy(cardId) then None
    else
      match Find(cards, (c: CreditCard) => c.id == cardId.value)
      case None => None
      case Some(card) =>
        Some(CardDetailsView(card, GetMemberById(members, card.holderId), AvailableLimit(card),
                             Usage(card), RecentCardExpenses(transactions, cardId.value)))
  }

  /** The page opens the window for the selected card: once a card of the store is
      selected, the window shows that card. */
  lemma SelectedCardIsShown(cards: seq<CreditCard>, members: seq<FamilyMember>,
                            transactions: seq<Transaction>, i: int)
    requires 0 <= i < |cards| && cards[i].id != ""
    requires forall j :: 0 <= j < |cards| && j != i ==> cards[j].id != cards[i].id
    ensures var r := CardDetails(true, Some(cards[i].id), cards, members, transactions);
      r.Some? && r.value.card == cards[i]
  {
    var r := CardDetails(true, Some(cards[i].id), cards, members, transactions);
    assert r.Some?;
    var k :| 0 <= k < |cards| && cards[k] == r.value.card && cards[k].id == cards[i].id;
    assert k == i;
  }

  /** `category?.name || 'Sem categoria'` beside each recent expense. */
  function ExpenseCategoryLabel(categories: seq<Category>, categoryId: Id): (r: string)
    ensures r == "Sem categoria" || exists c :: c in categories && c.id == categoryId && c.name == r
    ensures (forall i :: 0 <= i < |categories| ==> categories[i].id != categoryId) ==> r == "Sem categoria"
    ensures forall i :: (0 <= i < |categories| && categories[i].id == categoryId
               && (forall j :: 0 <= j < i ==> categories[j].id != categoryId)) ==>
              r == (if categories[i].name != "" then categories[i].name else "Sem categoria")
  {
    CategoryNameOr(categories, categoryId, "Sem categoria")
  }
}
