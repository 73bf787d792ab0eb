/** The account/card form (src/components/modals/AddCardModal.tsx): one form for a bank
    account or a credit card, its digit-only money inputs, its validation and the
    record it hands to the store. */
module AddCardForm {
  import opened Common
  import opened Calendar
  import opened Types
  import opened Crud
  import opened FinanceStore
  import opened Currency
  import opened FormInput

  /** Which of the two records the form builds (`accountType`). */
  datatype AccountType = BankAccountType | CreditCardType

  /** The fields `validate` can report on. */
  datatype CardField = NameField | HolderField | BalanceField | ClosingDayField | DueDayField | LimitField

  const NameMessage := "Nome deve ter pelo menos 3 caracteres"
  const HolderMessage := "Selecione um titular"
  const BalanceMessage := "Informe o saldo inicial"
  const DayMessage := "Dia deve ser entre 1 e 31"
  const LimitMessage := "Limite deve ser maior que zero"

  /** The name check: empty, or under three characters once trimmed. */
  predicate NameTooShort(name: string) {
    name == "" || |Trim(name)| < 3
  }

  /** The day check as the source writes it: `!day || n < 1 || n > 31` with
      `n = parseInt(day)`. Both comparisons are false when n is NaN. */
  predicate DayRejectedAsWritten(day: string) {
    day == "" || ParseInt(day).Below(1.0) || ParseInt(day).Above(31.0)
  }

  /** The day check its message promises: the day must read as a number from 1 to 31. */
  predicate DayRejected(day: string) {
    !(ParseInt(day).Finite? && 1.0 <= ParseInt(day).value <= 31.0)
  }

  /** The two day checks part exactly on the non-empty inputs `parseInt` cannot read:
      the source lets those through. */
  lemma DayChecksDiffer(day: string)
    ensures DayRejectedAsWritten(day) != DayRejected(day) <==> day != "" && ParseInt(day).NaN?
  {
    if day == "" {
      TrimStartUnchanged(day);
      assert Unsigned(day) == day;
    }
  }

  /** A number input starting with a decimal point, such as ".5", is accepted as a
      closing day by the source's check, and the card would store NaN as its closing day. */
  lemma NaNClosingDayAccepted(day: string)
    requires |day| > 0 && day[0] == '.'
    ensures !DayRejectedAsWritten(day) && ParseInt(day).NaN?
    ensures DayRejected(day)
  {
    ParseIntOfLeadingPoint(day);
  }

  /** The limit check: `!limit || parseFloat(limit.replace(/\D/g, '')) <= 0`. */
  predicate LimitRejected(limit: string) {
    limit == "" || ParseFloat(DigitsOnly(limit)).AtMost(0.0)
  }

  /** On the digit strings the limit input keeps, the limit is rejected exactly when
      its digits are all zero (or there are none). */
  lemma LimitRejectedIffZero(limit: string)
    requires AllDigitChars(limit)
    ensures LimitRejected(limit) <==> DigitsValue(limit) == 0
  {
    DigitsOnlyOfDigits(limit);
    if limit != "" {
      ParseFloatOfDigits(limit);
      ParseIntOfDigits(limit);
    }
  }

  /** The error messages `validate` records, with the corrected day check. */
  function CardFormErrors(accountType: AccountType, name: string, holderId: Id, balance: string,
                          closingDay: string, dueDay: string, limit: string): (r: map<CardField, string>)
    ensures NameField in r <==> NameTooShort(name)
    ensures HolderField in r <==> holderId == ""
    ensures BalanceField in r <==> accountType == BankAccountType && balance == ""
    ensures accountType == BankAccountType ==> ClosingDayField !in r && DueDayField !in r && LimitField !in r
    ensures accountType == CreditCardType ==> (ClosingDayField in r <==> DayRejected(closingDay))
    ensures accountType == CreditCardType ==> (DueDayField in r <==> DayRejected(dueDay))
    ensures accountType == CreditCardType ==> (LimitField in r <==> LimitRejected(limit))
  {
    var e2 := HeaderErrors(NameTooShort(name), holderId == "");
    if accountType == BankAccountType then
      RecordIf(e2, balance == "", BalanceField, BalanceMessage)
    else
      CardOnlyErrors(e2, DayRejected(closingDay), DayRejected(dueDay), LimitRejected(limit))
  }

  /** The checks both tabs share, given their outcomes. */
  function HeaderErrors(badName: bool, noHolder: bool): (r: map<CardField, string>)
    ensures NameField in r <==> badName
    ensures HolderField in r <==> noHolder
    ensures BalanceField !in r && ClosingDayField !in r && DueDayField !in r && LimitField !in r
  {
    var e1 := RecordIf(map[], badName, NameField, NameMessage);
    RecordIf(e1, noHolder, HolderField, HolderMessage)
  }

  /** The card tab's three checks, given their outcomes. */
  function CardOnlyErrors(e: map<CardField, string>, badClosing: bool, badDue: bool, badLimit: bool)
      : (r: map<CardField, string>)
    ensures ClosingDayField in r <==> badClosing || ClosingDayField in e
    ensures DueDayField in r <==> badDue || DueDayField in e
    ensures LimitField in r <==> badLimit || LimitField in e
    ensures NameField in r <==> NameField in e
    ensures HolderField in r <==> HolderField in e
    ensures BalanceField in r <==> BalanceField in e
  {
    var e3 := RecordIf(e, badClosing, ClosingDayField, DayMessage);
    var e4 := RecordIf(e3, badDue, DueDayField, DayMessage);
    RecordIf(e4, badLimit, LimitField, LimitMessage)
  }

  /** Whether the form may be submitted. */
  predicate IsValidCardForm(accountType: AccountType, name: string, holderId: Id, balance: string,
                            closingDay: string, dueDay: string, limit: string) {
    && !NameTooShort(name) && holderId != ""
    && (accountType == BankAccountType ==> balance != "")
    && (accountType == CreditCardType ==>
          !DayRejected(closingDay) && !DayRejected(dueDay) && !LimitRejected(limit))
  }

  /** No error is recorded exactly when the form is valid. */
  lemma NoCardErrorsIffValid(accountType: AccountType, name: string, holderId: Id, balance: string,
                             closingDay: string, dueDay: string, limit: string)
    ensures CardFormErrors(accountType, name, holderId, balance, closingDay, dueDay, limit) == map[]
        <==> IsValidCardForm(accountType, name, holderId, balance, closingDay, dueDay, limit)
  {
    var r := CardFormErrors(accountType, name, holderId, balance, closingDay, dueDay, limit);
    if !IsValidCardForm(accountType, name, holderId, balance, closingDay, dueDay, limit) {
      assert NameField in r || HolderField in r || BalanceField in r
          || ClosingDayField in r || DueDayField in r || LimitField in r;
    }
  }

  /** A day that passed the corrected check, as `parseInt` reads it. */
  function DayNumber(day: string): (r: int)
    requires !DayRejected(day)
    ensures 1 <= r <= 31
    ensures ParseInt(day) == Finite(r as real)
  {
    ParseInt(day).value.Floor
  }

  /** The bank account `handleSubmit` passes to `addBankAccount`, dated `now`. */
  function BankDraft(name: string, holderId: Id, balance: string, now: Date): BankAccount
    requires AllDigitChars(balance) && balance != ""
  {
    BankAccount("", Trim(name), holderId, CentsValue(balance), now)
  }

  /** The card `handleSubmit` passes to `addCreditCard`, dated `now`; an empty
      last-digits field is left out. */
  function CardDraft(name: string, holderId: Id, closingDay: string, dueDay: string, limit: string,
                     lastDigits: string, theme: CardTheme, now: Date): CreditCard
    requires !DayRejected(closingDay) && !DayRejected(dueDay)
    requires AllDigitChars(limit) && limit != ""
  {
    CreditCard("", Trim(name), holderId, CentsValue(limit), 0.0, DayNumber(closingDay),
               DayNumber(dueDay), theme, if lastDigits == "" then None else Some(lastDigits), now)
  }

  /** What a valid card form submits: a name of at least three characters, a holder,
      a positive limit, no bill yet, days of the month from 1 to 31, and at most four
      last digits. */
  lemma SubmittedCardIsWellFormed(name: string, holderId: Id, closingDay: string, dueDay: string,
                                  limit: string, lastDigits: string, theme: CardTheme, now: Date)
    requires IsValidCardForm(CreditCardType, name, holderId, "", closingDay, dueDay, limit)
    requires AllDigitChars(limit) && AllDigitChars(lastDigits) && |lastDigits| <= 4
    ensures limit != ""
    ensures var c := CardDraft(name, holderId, closingDay, dueDay, limit, lastDigits, theme, now);
      DaysOfMonthDocumented(c) && c.limit > 0.0 && c.currentBill == 0.0
    ensures var c := CardDraft(name, holderId, closingDay, dueDay, limit, lastDigits, theme, now);
      |c.name| >= 3 && c.holderId != ""
    ensures var c := CardDraft(name, holderId, closingDay, dueDay, limit, lastDigits, theme, now);
      c.lastDigits.Some? ==> AllDigitChars(c.lastDigits.value) && 1 <= |c.lastDigits.value| <= 4
  {
    LimitRejectedIffZero(limit);
  }

  /** What a valid account form submits: a name of at least three characters, a holder,
      and the typed digits read as cents. */
  lemma SubmittedAccountIsWellFormed(name: string, holderId: Id, balance: string, now: Date)
    requires IsValidCardForm(BankAccountType, name, holderId, balance, "", "", "")
    requires AllDigitChars(balance)
    ensures var a := BankDraft(name, holderId, balance, now);
      |a.name| >= 3 && a.holderId != "" && a.balance * 100.0 == DigitsValue(balance) as real
  {
  }

  class AddCardModal {
    var accountType: AccountType
    var name: string
    var holderId: Id
    var balance: string
    var closingDay: string
    var dueDay: string
    var limit: string
    var lastDigits: string
    var theme: CardTheme
    var errors: map<CardField, string>

    /** The money inputs keep digits only; the last-digits input at most four. */
    predicate Valid()
      reads this`balance, this`limit, this`lastDigits
    {
      AllDigitChars(balance) && AllDigitChars(limit) && AllDigitChars(lastDigits) && |lastDigits| <= 4
    }

    /** The form's first state: a bank account with every field empty, black theme. */
    constructor()
      ensures Valid()
      ensures accountType == BankAccountType && name == "" && holderId == "" && balance == ""
      ensures closingDay == "" && dueDay == "" && limit == "" && lastDigits == ""
      ensures theme == Black && errors == map[]
    {
      accountType := BankAccountType;
      name := "";
      holderId := "";
      balance := "";
      closingDay := "";
      dueDay := "";
      limit := "";
      lastDigits := "";
      theme := Black;
      errors := map[];
    }

    /** Opening the form resets every field. */
    method Open()
      modifies this
      ensures Valid()
      ensures accountType == BankAccountType && name == "" && holderId == "" && balance == ""
      ensures closingDay == "" && dueDay == "" && limit == "" && lastDigits == ""
      ensures theme == Black && errors == map[]
    {
      accountType := BankAccountType;
      name := "";
      holderId := "";
      balance := "";
      closingDay := "";
      dueDay := "";
      limit := "";
      lastDigits := "";
      theme := Black;
      errors := map[];
    }

    /** The two tabs; switching keeps what was typed in either. */
    method SetAccountType(t: AccountType)
      requires Valid()
      modifies this
      ensures Valid() && accountType == t
      ensures name == old(name) && holderId == old(holderId) && balance == old(balance)
      ensures closingDay == old(closingDay) && dueDay == old(dueDay) && limit == old(limit)
      ensures lastDigits == old(lastDigits) && theme == old(theme) && errors == old(errors)
    {
      accountType := t;
    }

    /** The name, holder, day and theme inputs take the value as typed or chosen. */
    method SetFields(name: string, holderId: Id, closingDay: string, dueDay: string, theme: CardTheme)
      requires Valid()
      modifies this
      ensures Valid()
      ensures this.name == name && this.holderId == holderId && this.closingDay == closingDay
      ensures this.dueDay == dueDay && this.theme == theme
      ensures accountType == old(accountType) && balance == old(balance) && limit == old(limit)
      ensures lastDigits == old(lastDigits) && errors == old(errors)
    {
      this.name := name;
      this.holderId := holderId;
      this.closingDay := closingDay;
      this.dueDay := dueDay;
      this.theme := theme;
    }

    /** The initial-balance input keeps only the digits typed. */
    method SetBalance(input: string)
      requires Valid()
      modifies this
      ensures Valid() && balance == DigitsOnly(input)
      ensures accountType == old(accountType) && name == old(name) && holderId == old(holderId)
      ensures closingDay == old(closingDay) && dueDay == old(dueDay) && limit == old(limit)
      ensures lastDigits == old(lastDigits) && theme == old(theme) && errors == old(errors)
    {
      balance := DigitsOnly(input);
    }

    /** The limit input keeps only the digits typed. */
    method SetLimit(input: string)
      requires Valid()
      modifies this
      ensures Valid() && limit == DigitsOnly(input)
      ensures accountType == old(accountType) && name == old(name) && holderId == old(holderId)
      ensures balance == old(balance) && closingDay == old(closingDay) && dueDay == old(dueDay)
      ensures lastDigits == old(lastDigits) && theme == old(theme) && errors == old(errors)
    {
      limit := DigitsOnly(input);
    }

    /** The last-digits input: at most four characters reach the handler, which keeps
        the digits among them. */
    method SetLastDigits(input: string)
      requires Valid() && |input| <= 4
      modifies this
      ensures Valid() && lastDigits == DigitsOnly(input)
      ensures accountType == old(accountType) && name == old(name) && holderId == old(holderId)
      ensures balance == old(balance) && closingDay == old(closingDay) && dueDay == old(dueDay)
      ensures limit == old(limit) && theme == old(theme) && errors == old(errors)
    {
      lastDigits := DigitsOnly(input);
    }

    /** `validate`: records one message per failed field of the selected tab and
        reports whether none failed. */
    method Validate() returns (ok: bool)
      requires Valid()
      modifies this`errors
      ensures Valid()
      ensures errors == CardFormErrors(old(accountType), old(name), old(holderId), old(balance),
                                       old(closingDay), old(dueDay), old(limit))
      ensures ok <==> IsValidCardForm(old(accountType), old(name), old(holderId), old(balance),
                                      old(closingDay), old(dueDay), old(limit))
    {
      var newErrors := CardFormErrors(accountType, name, holderId, balance, closingDay, dueDay, limit);
      NoCardErrorsIffValid(accountType, name, holderId, balance, closingDay, dueDay, limit);
      ok := newErrors == map[];
      errors := newErrors;
    }

    /** `handleSubmit`: a valid form appends the account or the card to the store; an
        invalid one changes only the recorded errors. */
    method Submit(store: Store, freshId: Id, now: Date) returns (submitted: bool)
      requires Valid()
      modifies this`errors, store
      ensures Valid()
      ensures submitted <==> IsValidCardForm(accountType, name, holderId, balance, closingDay, dueDay, limit)
      ensures errors == CardFormErrors(accountType, name, holderId, balance, closingDay, dueDay, limit)
      ensures submitted && accountType == BankAccountType ==>
        store.bankAccounts == old(store.bankAccounts) + [NewBankAccount(BankDraft(name, holderId, balance, now), freshId, now)]
        && store.creditCards == old(store.creditCards)
      ensures submitted && accountType == CreditCardType ==>
        limit != ""
        && store.creditCards == old(store.creditCards)
           + [NewCreditCard(CardDraft(name, holderId, closingDay, dueDay, limit, lastDigits, theme, now), freshId, now)]
        && store.bankAccounts == old(store.bankAccounts)
      ensures !submitted ==> store.bankAccounts == old(store.bankAccounts) && store.creditCards == old(store.creditCards)
      ensures store.transactions == old(store.transactions) && store.goals == old(store.goals)
      ensures store.familyMembers == old(store.familyMembers) && store.categories == old(store.categories)
      ensures store.filters == old(store.filters)
    {
      submitted := Validate();
      if submitted {
        if accountType == BankAccountType {
          store.AddBankAccount(BankDraft(name, holderId, balance, now), freshId, now);
        } else {
          LimitRejectedIffZero(limit);
          store.AddCreditCard(CardDraft(name, holderId, closingDay, dueDay, limit, lastDigits, theme, now),
                              freshId, now);
        }
      }
    }
  }
}
