/** The "Próximas despesas" widget (src/components/dashboard/NextExpensesWidget.tsx):
    the five pending expenses due soonest, the account each is charged to, and the
    button that marks one as paid. */
module NextExpenses {
  import opened Common
  import opened Calendar
  import opened Types
  import opened Crud
  import opened Queries
  import opened FinanceStore

  /** `getPendingExpenses().slice(0, 5)`. */
  function UpcomingExpenses(ts: seq<Transaction>): (r: seq<Transaction>)
    ensures |r| == if |PendingExpenses(ts)| < 5 then |PendingExpenses(ts)| else 5
    ensures r == PendingExpenses(ts)[..|r|]
  {
    var pending := PendingExpenses(ts);
    if |pending| < 5 then pending else pending[..5]
  }

  /** The widget lists unpaid expenses with a due date, soonest first, and no pending
      expense it leaves out is due before one it shows. */
  lemma UpcomingAreTheSoonest(ts: seq<Transaction>)
    ensures forall t :: t in UpcomingExpenses(ts) ==>
              t in ts && t.kind == Expense && !t.isPaid && t.dueDate.Some?
    ensures forall i, j :: 0 <= i < j < |UpcomingExpenses(ts)| ==>
              Millis(UpcomingExpenses(ts)[i].dueDate.value) <= Millis(UpcomingExpenses(ts)[j].dueDate.value)
    ensures forall t :: t in PendingExpenses(ts) ==> t.dueDate.Some?
    ensures forall i, j :: 0 <= i < |UpcomingExpenses(ts)| <= j < |PendingExpenses(ts)| ==>
              Millis(UpcomingExpenses(ts)[i].dueDate.value) <= Millis(PendingExpenses(ts)[j].dueDate.value)
  {
    PendingExpensesSpec(ts);
    var p := PendingExpenses(ts);
    var r := UpcomingExpenses(ts);
    forall t | t in r
      ensures t in ts && t.kind == Expense && !t.isPaid && t.dueDate.Some?
    {
      assert t in p;
    }
  }

  /** The empty state shows exactly when nothing in the store is pending. */
  lemma EmptyStateIffNothingPending(ts: seq<Transaction>)
    ensures |UpcomingExpenses(ts)| == 0 <==> forall t :: t in ts ==> !IsPendingExpense(t)
  {
    PendingExpensesSpec(ts);
    if |UpcomingExpenses(ts)| != 0 {
      assert PendingExpenses(ts)[0] in PendingExpenses(ts);
    } else {
      assert |PendingExpenses(ts)| == 0;
    }
  }

  /** `card?.lastDigits || '0000'`. */
  function DigitsShown(lastDigits: Option<string>): (r: string)
    ensures r != ""
    ensures lastDigits.Some? && lastDigits.value != "" ==> r == lastDigits.value
  {
    if lastDigits.Some? && lastDigits.value != "" then lastDigits.value else "0000"
  }

  function CardLabel(card: CreditCard): string {
    "Crédito " + card.name + " **** " + DigitsShown(card.lastDigits)
  }

  /** The name an account lookup resolved to. */
  function ResolvedName(a: Account): string {
    match a
    case BankAcc(b) => b.name
    case CardAcc(c) => c.name
  }

  /** `getAccountInfo`: 'Desconhecido' when no account has the id; the card label when a
      card has it, even if a bank account shares the id; otherwise the bank account's
      name. The page's `some` test and its `find` agree, so one `find` decides. */
  function AccountInfo(accounts: seq<BankAccount>, cards: seq<CreditCard>, accountId: Id): (r: string)
    ensures ((forall i :: 0 <= i < |accounts| ==> accounts[i].id != accountId)
             && (forall i :: 0 <= i < |cards| ==> cards[i].id != accountId)) ==> r == "Desconhecido"
    ensures (exists i :: 0 <= i < |cards| && cards[i].id == accountId) ==>
      exists i :: 0 <= i < |cards| && cards[i].id == accountId && r == CardLabel(cards[i])
                  && forall j :: 0 <= j < i ==> cards[j].id != accountId
    ensures (forall i :: 0 <= i < |cards| ==> cards[i].id != accountId) ==>
      r == "Desconhecido" || exists a :: a in accounts && a.id == accountId && a.name == r
    ensures (forall i :: 0 <= i < |cards| ==> cards[i].id != accountId) ==>
      forall i :: (0 <= i < |accounts| && accounts[i].id == accountId
         && (forall j :: 0 <= j < i ==> accounts[j].id != accountId)) ==> r == accounts[i].name
  {
    match GetAccountById(accounts, cards, accountId)
    case None => "Desconhecido"
    case Some(account) =>
      match Find(cards, (c: CreditCard) => c.id == accountId)
      case Some(card) => CardLabel(card)
      case None => ResolvedName(account)
  }

  /** `handleMarkAsPaid`: hands the row's id to `markTransactionAsPaid`. */
  method MarkAsPaid(store: Store, id: Id)
    modifies store
    ensures store.transactions == MarkPaid(old(store.transactions), id)
    ensures store.goals == old(store.goals) && store.creditCards == old(store.creditCards)
    ensures store.bankAccounts == old(store.bankAccounts) && store.familyMembers == old(store.familyMembers)
    ensures store.categories == old(store.categories) && store.filters == old(store.filters)
  {
    store.MarkTransactionAsPaid(id);
  }

  /** A row marked as paid leaves the widget. */
  lemma MarkedRowLeaves(ts: seq<Transaction>, id: Id, t: Transaction)
    requires t in UpcomingExpenses(MarkPaid(ts, id))
    ensures t.id != id
  {
    assert t in PendingExpenses(MarkPaid(ts, id));
    PaidIsNotPending(ts, id, t);
  }
}
