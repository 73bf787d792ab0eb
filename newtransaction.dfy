/** The new-transaction form (src/components/modals/NewTransactionModal.tsx): its fields,
    the amount input that reads typed digits as cents, the validation that gates
    submission, the transaction it submits, and the inline "new category" entry. */
module NewTransactionForm {
  import opened Common
  import opened Calendar
  import opened Types
  import opened Crud
  import opened FinanceStore
  import opened FormInput
  import opened Validation

  /** The amount typed so far: the digits of the input read as cents, kept only when
      positive (`numValue > 0 ? numValue.toString() : ''`). */
  function AmountFromInput(input: string): (r: Option<real>)
    ensures r.Some? <==> DigitsValue(DigitsOnly(input)) > 0
    ensures r.Some? ==> r.value > 0.0 && r.value * 100.0 == DigitsValue(DigitsOnly(input)) as real
  {
    var digits := DigitsOnly(input);
    assert digits != "" ==> ParseInt(digits) == Finite(DigitsValue(digits) as real) by {
      if digits != "" {
        ParseIntOfDigits(digits);
      }
    }
    match ParseInt(digits)
    case Finite(v) => if v / 100.0 > 0.0 then Some(v / 100.0) else None
    case _ => None
  }

  /** The categories offered: those of the selected type. */
  function CategoriesOfType(categories: seq<Category>, kind: TransactionType): (r: seq<Category>)
    ensures forall c :: c in r <==> c in categories && c.kind == kind
  {
    var r := Filter(categories, (c: Category) => c.kind == kind);
    forall c ensures c in r <==> c in categories && c.kind == kind {
      FilterMembership(categories, (c: Category) => c.kind == kind, c);
    }
    r
  }

  /** Whether the form may be submitted. */
  predicate IsValidForm(amount: Option<real>, description: string, categoryId: Id, accountId: Id) {
    && amount.Some? && amount.value > 0.0
    && |Trim(description)| >= 3
    && categoryId != ""
    && accountId != ""
  }

  /** The fields `validate` can report on; the source keys its error record by these
      field names. */
  datatype Field = AmountField | DescriptionField | CategoryField | AccountField

  const AmountMessage := "Valor deve ser maior que zero"
  const DescriptionMessage := "Descrição deve ter pelo menos 3 caracteres"
  const CategoryMessage := "Selecione uma categoria"
  const AccountMessage := "Selecione uma conta ou cartão"

  /** The amount check of `validate`: no amount, or one not above zero. */
  predicate AmountMissing(amount: Option<real>) {
    amount.None? || amount.value <= 0.0
  }

  /** The description check of `validate`: empty, or under three characters once trimmed. */
  predicate DescriptionTooShort(description: string) {
    description == "" || |Trim(description)| < 3
  }

  /** The error messages `validate` records, one per failed field. */
  function FormErrors(amount: Option<real>, description: string, categoryId: Id, accountId: Id): (r: map<Field, string>)
    ensures AmountField in r <==> !(amount.Some? && amount.value > 0.0)
    ensures DescriptionField in r <==> |Trim(description)| < 3
    ensures CategoryField in r <==> categoryId == ""
    ensures AccountField in r <==> accountId == ""
    ensures r.Keys <= {AmountField, DescriptionField, CategoryField, AccountField}
  {
    var e1 := RecordIf(map[], AmountMissing(amount), AmountField, AmountMessage);
    var e2 := RecordIf(e1, DescriptionTooShort(description), DescriptionField, DescriptionMessage);
    var e3 := RecordIf(e2, categoryId == "", CategoryField, CategoryMessage);
    RecordIf(e3, accountId == "", AccountField, AccountMessage)
  }

  /** No error is recorded exactly when the form is valid. */
  lemma NoErrorsIffValid(amount: Option<real>, description: string, categoryId: Id, accountId: Id)
    ensures FormErrors(amount, description, categoryId, accountId) == map[]
        <==> IsValidForm(amount, description, categoryId, accountId)
  {
    var r := FormErrors(amount, description, categoryId, accountId);
    if !IsValidForm(amount, description, categoryId, accountId) {
      assert AmountField in r || DescriptionField in r || CategoryField in r || AccountField in r;
    }
  }

  /** The record `handleSubmit` passes to `addTransaction`, dated `now`. The store
      replaces the id and the creation date. */
  function Submission(kind: TransactionType, amount: real, description: string, categoryId: Id,
                      accountId: Id, memberId: Option<Id>, installments: int, isRecurring: bool,
                      now: Date): Transaction {
    Transaction("", kind, Trim(description), amount, categoryId, accountId, memberId, now,
                None, installments, None, Completed, isRecurring, kind == Income, now)
  }

  /** What the form's own checks demand of a transaction: a positive amount, a trimmed
      description of at least three characters (`hasMinLength`), a category and an
      account. */
  predicate MeetsFormRules(t: Transaction) {
    && t.amount > 0.0
    && HasMinLength(t.description, 3) && Trim(t.description) == t.description
    && t.categoryId != "" && t.accountId != ""
  }

  /** A valid form submits a transaction that meets the form's rules. */
  lemma SubmissionOfValidForm(kind: TransactionType, amount: Option<real>, description: string,
                              categoryId: Id, accountId: Id, memberId: Option<Id>,
                              installments: int, isRecurring: bool, now: Date)
    requires IsValidForm(amount, description, categoryId, accountId)
    ensures MeetsFormRules(Submission(kind, amount.value, description, categoryId, accountId, memberId,
                                      installments, isRecurring, now))
  {
    var t := Submission(kind, amount.value, description, categoryId, accountId, memberId,
                        installments, isRecurring, now);
    var d := Trim(description);
    TrimIdempotent(description);
    assert t.description == d;
    assert HasMinLength(d, 3);
  }

  class NewTransactionModal {
    var kind: TransactionType
    var amount: Option<real>
    var description: string
    var categoryId: Id
    var memberId: Option<Id>
    var accountId: Id
    var installments: int
    var isRecurring: bool
    var showNewCategory: bool
    var newCategoryName: string
    var errors: map<Field, string>

    /** A recurring expense is never split into instalments. */
    predicate Valid()
      reads this`isRecurring, this`installments
    {
      isRecurring ==> installments == 1
    }

    /** The form's first state: an expense with every field empty. */
    constructor()
      ensures Valid()
      ensures kind == Expense && amount.None? && description == "" && categoryId == ""
      ensures memberId.None? && accountId == "" && installments == 1 && !isRecurring
      ensures !showNewCategory && newCategoryName == "" && errors == map[]
    {
      kind := Expense;
      amount := None;
      description := "";
      categoryId := "";
      memberId := None;
      accountId := "";
      installments := 1;
      isRecurring := false;
      showNewCategory := false;
      newCategoryName := "";
      errors := map[];
    }

    /** Opening the form resets the transaction fields and the errors; the new-category
        entry keeps its state. */
    method Open()
      modifies this
      ensures Valid()
      ensures kind == Expense && amount.None? && description == "" && categoryId == ""
      ensures memberId.None? && accountId == "" && installments == 1 && !isRecurring
      ensures errors == map[]
      ensures showNewCategory == old(showNewCategory) && newCategoryName == old(newCategoryName)
    {
      kind := Expense;
      amount := None;
      description := "";
      categoryId := "";
      memberId := None;
      accountId := "";
      installments := 1;
      isRecurring := false;
      errors := map[];
    }

    method SetKind(kind: TransactionType)
      requires Valid()
      modifies this
      ensures Valid() && this.kind == kind
      ensures amount == old(amount) && description == old(description) && categoryId == old(categoryId)
      ensures memberId == old(memberId) && accountId == old(accountId) && installments == old(installments)
      ensures isRecurring == old(isRecurring) && errors == old(errors)
      ensures showNewCategory == old(showNewCategory) && newCategoryName == old(newCategoryName)
    {
      this.kind := kind;
    }

    /** `handleAmountChange`. */
    method ChangeAmount(input: string)
      requires Valid()
      modifies this
      ensures Valid() && amount == AmountFromInput(input)
      ensures kind == old(kind) && description == old(description) && categoryId == old(categoryId)
      ensures memberId == old(memberId) && accountId == old(accountId) && installments == old(installments)
      ensures isRecurring == old(isRecurring) && errors == old(errors)
      ensures showNewCategory == old(showNewCategory) && newCategoryName == old(newCategoryName)
    {
      amount := AmountFromInput(input);
    }

    /** The member select: the empty option stands for the whole family. */
    method SetMember(value: string)
      requires Valid()
      modifies this
      ensures Valid() && memberId == (if value == "" then None else Some(value))
      ensures kind == old(kind) && amount == old(amount) && description == old(description)
      ensures categoryId == old(categoryId) && accountId == old(accountId) && installments == old(installments)
      ensures isRecurring == old(isRecurring) && errors == old(errors)
      ensures showNewCategory == old(showNewCategory) && newCategoryName == old(newCategoryName)
    {
      memberId := if value == "" then None else Some(value);
    }

    /** The instalment select, offered only while the expense is not recurring. */
    method SetInstallments(n: int)
      requires Valid() && !isRecurring
      modifies this
      ensures Valid() && installments == n
      ensures kind == old(kind) && amount == old(amount) && description == old(description)
      ensures categoryId == old(categoryId) && memberId == old(memberId) && accountId == old(accountId)
      ensures isRecurring == old(isRecurring) && errors == old(errors)
      ensures showNewCategory == old(showNewCategory) && newCategoryName == old(newCategoryName)
    {
      installments := n;
    }

    /** The recurring checkbox; turning it on brings the instalments back to 1. */
    method SetRecurring(on: bool)
      requires Valid()
      modifies this
      ensures Valid() && isRecurring == on
      ensures installments == if on then 1 else old(installments)
      ensures kind == old(kind) && amount == old(amount) && description == old(description)
      ensures categoryId == old(categoryId) && memberId == old(memberId) && accountId == old(accountId)
      ensures errors == old(errors)
      ensures showNewCategory == old(showNewCategory) && newCategoryName == old(newCategoryName)
    {
      isRecurring := on;
      if on {
        installments := 1;
      }
    }

    /** The other text and select fields take the value as typed or chosen. */
    method SetFields(description: string, categoryId: Id, accountId: Id, newCategoryName: string)
      requires Valid()
      modifies this
      ensures Valid()
      ensures this.description == description && this.categoryId == categoryId
      ensures this.accountId == accountId && this.newCategoryName == newCategoryName
      ensures kind == old(kind) && amount == old(amount) && memberId == old(memberId)
      ensures installments == old(installments) && isRecurring == old(isRecurring)
      ensures errors == old(errors) && showNewCategory == old(showNewCategory)
    {
      this.description := description;
      this.categoryId := categoryId;
      this.accountId := accountId;
      this.newCategoryName := newCategoryName;
    }

    /** "+ Nova Categoria" opens the inline entry. */
    method ShowNewCategory()
      requires Valid()
      modifies this
      ensures Valid() && showNewCategory && newCategoryName == old(newCategoryName)
      ensures kind == old(kind) && amount == old(amount) && description == old(description)
      ensures categoryId == old(categoryId) && memberId == old(memberId) && accountId == old(accountId)
      ensures installments == old(installments) && isRecurring == old(isRecurring) && errors == old(errors)
    {
      showNewCategory := true;
    }

    /** "Cancelar" closes the inline entry and clears the name typed in it. */
    method CancelNewCategory()
      requires Valid()
      modifies this
      ensures Valid() && !showNewCategory && newCategoryName == ""
      ensures kind == old(kind) && amount == old(amount) && description == old(description)
      ensures categoryId == old(categoryId) && memberId == old(memberId) && accountId == old(accountId)
      ensures installments == old(installments) && isRecurring == old(isRecurring) && errors == old(errors)
    {
      showNewCategory := false;
      newCategoryName := "";
    }

    /** `handleAddCategory`: a trimmed name of at least three characters becomes a new
        category of the selected type, and the entry closes; a shorter name changes
        nothing. */
    method AddCategory(store: Store, freshId: Id)
      requires Valid()
      modifies this, store
      ensures Valid()
      ensures |Trim(old(newCategoryName))| >= 3 ==>
        && store.categories == old(store.categories) + [Category(freshId, Trim(old(newCategoryName)), kind, None)]
        && newCategoryName == "" && !showNewCategory
      ensures |Trim(old(newCategoryName))| < 3 ==>
        store.categories == old(store.categories) && newCategoryName == old(newCategoryName)
        && showNewCategory == old(showNewCategory)
      ensures store.transactions == old(store.transactions) && store.goals == old(store.goals)
      ensures store.creditCards == old(store.creditCards) && store.bankAccounts == old(store.bankAccounts)
      ensures store.familyMembers == old(store.familyMembers) && store.filters == old(store.filters)
      ensures kind == old(kind) && amount == old(amount) && description == old(description)
      ensures categoryId == old(categoryId) && memberId == old(memberId) && accountId == old(accountId)
      ensures installments == old(installments) && isRecurring == old(isRecurring) && errors == old(errors)
    {
      var name := Trim(newCategoryName);
      if |name| >= 3 {
        store.AddCategory(Category("", name, kind, None), freshId);
        newCategoryName := "";
        showNewCategory := false;
      }
    }

    /** `validate`: records one message per failed field and reports whether none
        failed. */
    method Validate() returns (ok: bool)
      requires Valid()
      modifies this`errors
      ensures Valid()
      ensures errors == FormErrors(old(amount), old(description), old(categoryId), old(accountId))
      ensures ok <==> errors == map[]
    {
      errors := FormErrors(amount, description, categoryId, accountId);
      ok := errors == map[];
    }

    /** `handleSubmit`: a valid form adds its transaction at the head of the store's
        list; an invalid one changes only the recorded errors. */
    method Submit(store: Store, freshId: Id, now: Date) returns (submitted: bool)
      requires Valid()
      modifies this`errors, store
      ensures Valid()
      ensures submitted <==> IsValidForm(amount, description, categoryId, accountId)
      ensures errors == FormErrors(amount, description, categoryId, accountId)
      ensures submitted ==> (store.transactions ==
        [NewTransaction(Submission(kind, amount.value, description, categoryId, accountId, memberId,
                                   installments, isRecurring, now), freshId, now)]
        + old(store.transactions))
      ensures !submitted ==> store.transactions == old(store.transactions)
      ensures store.goals == old(store.goals) && store.creditCards == old(store.creditCards)
      ensures store.bankAccounts == old(store.bankAccounts) && store.familyMembers == old(store.familyMembers)
      ensures store.categories == old(store.categories) && store.filters == old(store.filters)
    {
      submitted := Validate();
      NoErrorsIffValid(amount, description, categoryId, accountId);
      if submitted {
        var t := Submission(kind, amount.value, description, categoryId, accountId, memberId,
                            installments, isRecurring, now);
        store.AddTransaction(t, freshId, now);
      }
    }
  }
}
