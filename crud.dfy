/** What the store's create, update and delete callbacks do to a collection
    (src/contexts/FinanceContext.tsx:343-449), as functions on sequences. Updates are
    `prev.map(x => x.id === id ? {...x, ...data} : x)` and deletes are
    `prev.filter(x => x.id !== id)`. */
module Crud {
  import opened Common
  import opened Calendar
  import opened Types

  /** Replaces each element that matches by its image under f, in place. */
  function UpdateWhere<T>(xs: seq<T>, hit: T -> bool, f: T -> T): (r: seq<T>)
    ensures |r| == |xs|
    ensures forall i :: 0 <= i < |xs| && hit(xs[i]) ==> r[i] == f(xs[i])
    ensures forall i :: 0 <= i < |xs| && !hit(xs[i]) ==> r[i] == xs[i]
  {
    if xs == [] then []
    else [if hit(xs[0]) then f(xs[0]) else xs[0]] + UpdateWhere(xs[1..], hit, f)
  }

  function UpdateById<T>(xs: seq<T>, idOf: T -> Id, id: Id, f: T -> T): seq<T> {
    UpdateWhere(xs, x => idOf(x) == id, f)
  }

  function DeleteById<T>(xs: seq<T>, idOf: T -> Id, id: Id): seq<T> {
    Filter(xs, x => idOf(x) != id)
  }

  /** An id that no element carries leaves the collection as it was, on update. */
  lemma UpdateByIdUnknown<T>(xs: seq<T>, idOf: T -> Id, id: Id, f: T -> T)
    requires forall i :: 0 <= i < |xs| ==> idOf(xs[i]) != id
    ensures UpdateById(xs, idOf, id, f) == xs
  {
  }

  /** An id that no element carries leaves the collection as it was, on delete. */
  lemma DeleteByIdUnknown<T>(xs: seq<T>, idOf: T -> Id, id: Id)
    requires forall i :: 0 <= i < |xs| ==> idOf(xs[i]) != id
    ensures DeleteById(xs, idOf, id) == xs
  {
    FilterAllPass(xs, x => idOf(x) != id);
  }

  /** Delete keeps exactly the elements with another id. */
  lemma DeleteByIdMembership<T>(xs: seq<T>, idOf: T -> Id, id: Id, x: T)
    ensures x in DeleteById(xs, idOf, id) <==> x in xs && idOf(x) != id
  {
    FilterMembership(xs, x => idOf(x) != id, x);
  }

  /** Delete keeps the survivors in their order: deleting from a concatenation is
      concatenating the deletions. */
  lemma DeleteByIdKeepsOrder<T>(xs: seq<T>, ys: seq<T>, idOf: T -> Id, id: Id)
    ensures DeleteById(xs + ys, idOf, id) == DeleteById(xs, idOf, id) + DeleteById(ys, idOf, id)
  {
    FilterAppend(xs, ys, x => idOf(x) != id);
  }

  /** An update that keeps ids, followed by a delete of the same id, is that delete. */
  lemma {:induction false} UpdateThenDelete<T>(xs: seq<T>, idOf: T -> Id, id: Id, f: T -> T)
    requires forall x :: idOf(f(x)) == idOf(x)
    ensures DeleteById(UpdateById(xs, idOf, id, f), idOf, id) == DeleteById(xs, idOf, id)
  {
    if xs != [] {
      var u := UpdateById(xs, idOf, id, f);
      assert u[1..] == UpdateById(xs[1..], idOf, id, f);
      UpdateThenDelete(xs[1..], idOf, id, f);
    }
  }

  /** An update whose change keeps the id and is idempotent is idempotent itself. */
  lemma UpdateByIdIdempotent<T>(xs: seq<T>, idOf: T -> Id, id: Id, f: T -> T)
    requires forall x :: idOf(f(x)) == idOf(x) && f(f(x)) == f(x)
    ensures UpdateById(UpdateById(xs, idOf, id, f), idOf, id, f) == UpdateById(xs, idOf, id, f)
  {
  }

  // ---------------------------------------------------------------
  // The store's callbacks, collection by collection
  // ---------------------------------------------------------------

  function TransactionId(t: Transaction): Id { t.id }
  function GoalId(g: Goal): Id { g.id }
  function CreditCardId(c: CreditCard): Id { c.id }
  function BankAccountId(a: BankAccount): Id { a.id }
  function FamilyMemberId(m: FamilyMember): Id { m.id }
  function CategoryId(c: Category): Id { c.id }

  /** `{ ...draft, id, createdAt }`: the draft's own id and creation date are replaced. */
  function NewTransaction(draft: Transaction, id: Id, now: Date): Transaction {
    draft.(id := id, createdAt := now)
  }

  function NewGoal(draft: Goal, id: Id, now: Date): Goal {
    draft.(id := id, createdAt := now)
  }

  function NewCreditCard(draft: CreditCard, id: Id, now: Date): CreditCard {
    draft.(id := id, createdAt := now)
  }

  function NewBankAccount(draft: BankAccount, id: Id, now: Date): BankAccount {
    draft.(id := id, createdAt := now)
  }

  function NewFamilyMember(draft: FamilyMember, id: Id, now: Date): FamilyMember {
    draft.(id := id, createdAt := now)
  }

  function NewCategory(draft: Category, id: Id): Category {
    draft.(id := id)
  }

  function PaidNow(t: Transaction): Transaction {
    t.(isPaid := true, status := Completed)
  }

  /** `markTransactionAsPaid`. */
  function MarkPaid(ts: seq<Transaction>, id: Id): seq<Transaction> {
    UpdateById(ts, TransactionId, id, PaidNow)
  }

  /** Marking as paid sets `isPaid` and `status` on the matching transactions, touches
      no other field of theirs, and leaves every other transaction alone. */
  lemma MarkPaidEffect(ts: seq<Transaction>, id: Id, i: int)
    requires 0 <= i < |ts|
    ensures |MarkPaid(ts, id)| == |ts|
    ensures ts[i].id == id ==>
      MarkPaid(ts, id)[i].isPaid && MarkPaid(ts, id)[i].status == Completed
      && MarkPaid(ts, id)[i].(isPaid := ts[i].isPaid, status := ts[i].status) == ts[i]
    ensures ts[i].id != id ==> MarkPaid(ts, id)[i] == ts[i]
  {
    var hit := (x: Transaction) => TransactionId(x) == id;
    assert MarkPaid(ts, id) == UpdateWhere(ts, hit, PaidNow);
    assert hit(ts[i]) <==> ts[i].id == id;
  }

  /** Marking the same transaction as paid twice is the same as once. */
  lemma MarkPaidIdempotent(ts: seq<Transaction>, id: Id)
    ensures MarkPaid(MarkPaid(ts, id), id) == MarkPaid(ts, id)
  {
    UpdateByIdIdempotent(ts, TransactionId, id, PaidNow);
  }

  /** Updating by id with a partial record that gives no id keeps every id, so the
      same transactions stay addressable. */
  lemma UpdateKeepsIds(ts: seq<Transaction>, id: Id, p: TransactionPatch, i: int)
    requires p.id.None? && 0 <= i < |ts|
    ensures UpdateById(ts, TransactionId, id, p.ApplyTo)[i].id == ts[i].id
  {
  }
}
