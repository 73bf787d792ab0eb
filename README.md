# dashboard-my-cash in Dafny

A model of the core of dashboard-my-cash, a personal-finance dashboard (React and
TypeScript) for a family. The core is the finance store in
`src/contexts/FinanceContext.tsx`, the utilities in `src/utils/`, the record types in
`src/types/index.ts`, and the rules that the pages, windows and hooks build on them.

- **The store** (`store.dfy`, module `FinanceStore`) is a class. Its fields are the
  six collections (transactions, goals, credit cards, bank accounts, family members,
  categories) and the global filters. Its methods are the store's callbacks: each add,
  update, delete and mark-as-paid. Each method states the new value of every field
  through the sequence functions of `crud.dfy`. Those functions carry lemmas that
  show only the matching id changes, that order is kept, and that marking as paid is
  idempotent.
- **The derived values** (`queries.dfy`) are functions of the collections:
  - the filtered transaction list;
  - the balance, income and expense totals;
  - expenses grouped by category, largest total first;
  - the savings rate;
  - the seven-month income and expense series, built by a loop proved against its
    specification;
  - the pending expenses, soonest due first;
  - the look-ups by id.
- **The utilities** are in `calendar.dfy` (dates and `date.ts`), `validation.ts`'s
  checks, `index.ts`'s helpers, and `currency.ts`'s input parsing, each in the module
  named after it.
- **The page rules** are:
  - the transaction table and page, their local filters, pagination and totals;
  - the three form windows: validation, input cleaning and the record submitted;
  - the header's and the mobile panel's filter controls with their quick date ranges;
  - the cards page and the card details window;
  - the next-expenses widget, the goals page and the sidebar hook.

  Where the source keeps state that handlers update, the model has a class with
  those fields and methods. Otherwise it has functions.

Conventions:
- Money is an exact `real`.
- A date is its local calendar fields plus the milliseconds of the day. `Millis` gives
  its `getTime` order.
- A JavaScript number that can be NaN or infinite is the datatype `JsNumber`.
- The current time, fresh ids and `encodeURIComponent` are parameters.

## Model

| member | source | states |
|---|---|---|
| Common.JsNumber.MinWith | src/pages/Cartoes.tsx:123 | `Math.min(x, c)`: a finite x capped at c, +Infinity becomes c, and NaN and -Infinity pass through unchanged |
| Common.RoundHalfUp | src/pages/Cartoes.tsx:19 | `Math.round` gives the integer within one half of x, halves rounding up |
| Common.Find | src/contexts/FinanceContext.tsx:594-596 | `find` gives the first element that satisfies the test, and nothing exactly when none does |
| Common.FilterMembership | src/contexts/FinanceContext.tsx:462 | `filter` keeps exactly the elements that pass the test |
| Common.DigitsOnly | src/components/modals/AddMemberModal.tsx:61 | `replace(/\D/g, '')` leaves only digits and never lengthens the text |
| Common.DigitsOnlyMembership | src/components/modals/AddMemberModal.tsx:61 | a character is in the cleaned text exactly when it is a digit of the original; with DigitsOnlyAppend, the digits keep their order |
| Common.DigitsOnlyIdempotent | src/components/modals/AddCardModal.tsx:220 | cleaning text that was already cleaned changes nothing |
| Common.DigitsOnlyAppend | src/components/modals/AddMemberModal.tsx:61 | cleaning text typed in two parts is cleaning each part |
| Common.DigitsValueZero | src/components/modals/AddCardModal.tsx:72 | digits read as zero exactly when every digit is '0' |
| Common.Trim | src/utils/validation.ts:83 | `trim` leaves no white space at either end and never lengthens the text |
| Common.TrimStartDropsSpaces | src/utils/validation.ts:83 | everything removed from the front is white space |
| Common.TrimEndDropsSpaces | src/utils/validation.ts:83 | everything removed from the back is white space |
| Common.TrimIsSlice | src/utils/validation.ts:83 | `trim` gives a slice s[i..j] of the text with only white space before i and after j |
| Common.TrimUnchanged | src/utils/validation.ts:83 | text without white space at either end trims to itself |
| Common.ToLower | src/contexts/FinanceContext.tsx:481 | `toLowerCase` keeps the length and lowers each character (ASCII capitals A-Z) |
| Common.IncludesAt | src/contexts/FinanceContext.tsx:483 | `includes` holds exactly when the text occurs at some position |
| Common.IncludesEmpty | src/contexts/FinanceContext.tsx:480-488 | every text includes the empty text |
| Common.NatToStringRoundTrip | src/utils/date.ts:63 | the decimal text of a count reads back as that count |
| Calendar.DaysInMonth | src/utils/date.ts:84-86 | a month has 28 to 31 days; February has 29 exactly in leap years |
| Calendar.BeforeMeansEarlier | src/utils/date.ts:95-99 | a date earlier by year, month, day and time of day has a smaller `getTime` |
| Calendar.MillisOrderIsCalendarOrder | src/utils/date.ts:95-99 | comparing `getTime` values is comparing dates by year, month, day and time of day, in both directions |
| Calendar.MonthOf | src/utils/date.ts:75-77 | the year and month of a date form a valid month |
| Calendar.AddMonths | src/contexts/FinanceContext.tsx:559-560 | `new Date(y, m + k, 1)` rolls the year over: the result is a valid month exactly k months later |
| Calendar.IndexDeterminesMonth | src/contexts/FinanceContext.tsx:559-560 | two valid months with the same month count are the same month |
| Calendar.PreviousOfJanuary | src/contexts/FinanceContext.tsx:559 | one month before January is December of the previous year |
| Calendar.AddMonthsCompose | src/contexts/FinanceContext.tsx:559-560 | shifting by j months and then by k months is shifting by j + k |
| Calendar.FirstDay | src/utils/date.ts:76 | midnight of day 1 of the given month |
| Calendar.LastDay | src/utils/date.ts:85 | `new Date(y, m + 1, 0)` is midnight of the month's last day, whose number is the month's length |
| Calendar.LastDayThenNextMonth | src/utils/date.ts:84-86 | one day after midnight of a month's last day is midnight of the next month's first day |
| Calendar.WithinMonthBounds | src/contexts/FinanceContext.tsx:562-565 | a date lies between midnight of the month's first day and midnight of its last day exactly when it falls in that month and is not later than 00:00 on the last day |
| Calendar.DateRangeIsInclusive | src/utils/date.ts:95-99 | both end points of a non-empty range are in range |
| Calendar.GetFirstDayOfMonth | src/utils/date.ts:75-77 | day 1 of the same month at midnight, never after the given date |
| Calendar.GetLastDayOfMonth | src/utils/date.ts:84-86 | midnight of the last day of the same month, less than a day before or after the given date |
| Calendar.FebruaryLastDay | src/utils/date.ts:84-86 | the last day of February is the 29th exactly in leap years |
| Calendar.DiffDays | src/utils/date.ts:58-59 | the floored number of whole days between two dates |
| Calendar.RelativeLabel | src/utils/date.ts:61-67 | each label's day range: today, yesterday, n days, one week, n weeks, one month, n months, with the count shown |
| Calendar.RelativeLabelMonotone | src/utils/date.ts:55-68 | an older date never gets a more recent label |
| Currency.StripCurrencySymbol | src/utils/currency.ts:40 | removing every "R$" with one optional white-space character never lengthens the text |
| Currency.StripKeepsOtherCharacters | src/utils/currency.ts:40 | only 'R', '$' and white space are ever removed: every other character survives, in order |
| Currency.StripWithoutSymbol | src/utils/currency.ts:40 | text with no 'R' is left as it is |
| Currency.StripLeadingSymbol | src/utils/currency.ts:40 | a leading "R$ " goes as a whole |
| Currency.RemoveDots | src/utils/currency.ts:41 | no '.' is left |
| Currency.ReplaceFirst | src/utils/currency.ts:42 | a string pattern replaces only the first occurrence; the length is kept |
| Currency.ReplaceFirstAbsent | src/utils/currency.ts:42 | text without the character is left alone |
| Currency.ReplaceFirstCommaGivesOneDot | src/utils/currency.ts:41-42 | once the dots are gone, turning the first ',' into '.' leaves at most one '.' |
| Currency.CleanedHasAtMostOneDot | src/utils/currency.ts:39-43 | the cleaned text handed to `parseFloat` holds at most one decimal point |
| Currency.RemoveSeparators | src/utils/currency.ts:41 | "<digits and dots>,<digits>" keeps its digits and its comma |
| Currency.CleanFormattedAmount | src/utils/currency.ts:39-43 | "R$ <digits and dots>,<cents>" cleans to the digits, a '.', and the cents |
| Currency.Power10 | src/utils/currency.ts:45 | every power of ten is positive |
| Currency.ReadDecimal | src/utils/currency.ts:45 | a decimal is read exactly when the text starts with a digit, or with a '.' and a digit |
| Currency.ReadMagnitude | src/utils/currency.ts:45 | "Infinity" reads as an infinite magnitude, a decimal as its value, anything else as nothing |
| Currency.ParseFloat | src/utils/currency.ts:45 | `parseFloat` is NaN exactly when no number starts the text, and infinite exactly for "Infinity" |
| Currency.ReadPlainDecimal | src/utils/currency.ts:45 | "a.b" with at least one digit reads as a + b / 10^len(b) |
| Currency.ParseDecimal | src/utils/currency.ts:45 | `parseFloat("a.b")` is a + b / 10^len(b) |
| Currency.ParseLonePoint | src/utils/currency.ts:45 | `parseFloat(".")` is NaN |
| Currency.ParseCurrencyInput | src/utils/currency.ts:38-47 | never NaN: 0 when the cleaned text holds no number, otherwise `parseFloat` of it |
| Currency.ParseFormattedAmount | src/utils/currency.ts:35-47 | "R$ <digits with '.' separators>,<cents>" reads as its digits plus the cents |
| Currency.EmptyAmount | src/utils/currency.ts:45-46 | text that cleans to a lone '.' reads as 0 |
| Currency.ParseOfCleaned | src/utils/currency.ts:45-46 | the result is `parseFloat` of the cleaned text, or 0 for NaN |
| Currency.DocumentedExample | src/utils/currency.ts:35-36 | "R$ 1.234,56" reads as 1234.56, as the function's documentation promises |
| Currency.FormatCurrencyInput | src/utils/currency.ts:54-59 | empty text exactly for 0 and NaN, otherwise the locale text |
| FormInput.ParseInt | src/components/modals/AddCardModal.tsx:62 | `parseInt` is never infinite, is NaN exactly when no digit follows the optional white space and sign, and is otherwise whole |
| FormInput.ParseIntOfDigits | src/components/modals/AddCardModal.tsx:94-95 | on a non-empty digit string `parseInt` reads the whole string |
| FormInput.ParseFloatOfDigits | src/components/modals/AddCardModal.tsx:72 | on a non-empty digit string `parseFloat` agrees with `parseInt` |
| FormInput.ParseIntOfLeadingPoint | src/components/modals/AddCardModal.tsx:62 | `parseInt` of any string starting with a decimal point, ".5" among them, is NaN |
| FormInput.CentsAmount | src/components/modals/AddCardModal.tsx:88 | the digits of the text read as cents: NaN exactly when there is no digit, otherwise a non-negative amount that is one hundredth of the digits' value |
| FormInput.ParseFloatDigits | src/components/modals/AddCardModal.tsx:72 | `parseFloat` of a digit string is NaN exactly for the empty string, otherwise the digits' value |
| FormInput.CentsValue | src/components/modals/AddMemberModal.tsx:54 | the digits of a non-empty digit string read as cents, and the same value as the NaN-aware reading |
| Validation.CheckDigit | src/utils/validation.ts:29-34 | a check digit is a single digit: ten times the weighted sum modulo 11, with 10 read as 0 |
| Validation.IsValidCPF | src/utils/validation.ts:20-46 | the two loops accept exactly the valid CPFs: eleven digits once the rest is dropped, not all the same, both check digits right |
| Validation.CpfOnlyDigitsMatter | src/utils/validation.ts:21 | punctuation and any other non-digit character never change the verdict |
| Validation.DigitChar | src/utils/validation.ts:35 | the digit character for a value 0 to 9 reads back as that value |
| Validation.CompleteCpf | src/utils/validation.ts:29-43 | nine digits completed with their two check digits give eleven digits that start with them |
| Validation.CpfIsCompletion | src/utils/validation.ts:23-45 | eleven digits are a valid CPF exactly when they are not all the same and are the completion of their first nine |
| Validation.RepeatedDigitsNeedTheirOwnRule | src/utils/validation.ts:26 | 111.111.111-11 passes both check digits, so only the repeated-digit rule rejects it |
| Validation.SampleCpfIsValid | src/utils/validation.ts:20-46 | 529.982.247-25 is a valid CPF |
| Validation.IndexOf | src/utils/validation.ts:11 | the position of the first occurrence, or -1 when there is none |
| Validation.ValidEmailMatchesPattern | src/utils/validation.ts:10-13 | every string the plain reading accepts matches the regular expression |
| Validation.PatternMatchIsValidEmail | src/utils/validation.ts:10-13 | every string the regular expression matches is accepted by the plain reading |
| Validation.EmailCheckIsThePattern | src/utils/validation.ts:10-13 | the plain reading (no white space, one '@' with text before it, a '.' with text on both sides after it) agrees with the regular expression in both directions |
| Validation.IsValidDate | src/utils/validation.ts:54-64 | an invalid date is rejected; a valid one is accepted when the future is allowed, and otherwise exactly when it is not after now |
| Validation.PastDatesAlwaysValid | src/utils/validation.ts:58-61 | a date not after now is accepted with or without `allowFuture` |
| Validation.IsPositiveNumber | src/utils/validation.ts:71-74 | true exactly for numbers above zero, +Infinity included |
| Validation.HasMinLength | src/utils/validation.ts:82-84 | the trimmed length is compared, so a pass implies the raw length too |
| Validation.BlankHasNoLength | src/utils/validation.ts:83 | text of white space only never has a positive minimum length |
| Validation.BlankTrimsToEmpty | src/utils/validation.ts:83 | text of white space only trims to nothing |
| Utils.RoundHalfAway | src/utils/index.ts:25 | the rounding `toFixed` does: an integer within one half of y, which is y + 0.5 only when y >= 0 and y - 0.5 only when y < 0, so a tie goes away from zero; never negative for a non-negative value |
| Utils.RoundWhole | src/utils/index.ts:25 | an integer rounds to itself |
| Utils.RoundHalfAwayOdd | src/utils/index.ts:25 | rounding is symmetric about zero |
| Utils.ToFixed | src/utils/index.ts:25 | `Number(x.toFixed(d))` times 10^d is a whole number of units, x·10^d rounded half away from zero, and so within half a unit of x·10^d |
| Utils.ToFixedOfMultiple | src/utils/index.ts:54 | a multiple of 10^-d is kept as it is |
| Utils.ToFixedIdempotent | src/utils/index.ts:42 | rounding an already rounded value changes nothing |
| Utils.ToFixedSymmetric | src/utils/index.ts:42 | rounding a negated value negates the result |
| Utils.CalculatePercentage | src/utils/index.ts:23-26 | 0 for a zero total; otherwise a value with one decimal within 0.05 of the exact percentage |
| Utils.CalculateDifference | src/utils/index.ts:34-44 | the absolute change, and a relative change of 0 when the previous value is 0 |
| Utils.DifferenceIsPercentageOfChange | src/utils/index.ts:38-42 | the relative change is the change as a percentage of the previous value, to one decimal |
| Utils.CalculateInstallmentValue | src/utils/index.ts:52-55 | the total itself for a count that is not positive, otherwise a whole number of cents within half a cent of the share per instalment |
| Utils.GroupSnoc | src/utils/index.ts:64-71 | adding an item appends it to its own key's group only |
| Utils.GroupAbsent | src/utils/index.ts:66 | a key no item has gets no items |
| Utils.GroupBy | src/utils/index.ts:63-72 | the loop makes one group for exactly the keys some item has, each holding that key's items in input order |
| Utils.GroupsPartition | src/utils/index.ts:63-72 | every item is in its own key's group as often as in the input, and in no other group |
| Utils.GroupKeepsOrder | src/utils/index.ts:69 | the group of a concatenation is the concatenation of the groups |
| Utils.SortByDate | src/utils/index.ts:80-89 | a copy holding the same items, newest first for 'desc' and oldest first for 'asc' |
| Utils.Clamp | src/utils/index.ts:115-117 | never above max; not below min when min <= max; max when the bounds cross; a value in range is unchanged |
| Utils.InRangeIffClampFixes | src/utils/validation.ts:93-95 | `isInRange` (both bounds inclusive) holds exactly when `clamp` leaves the value unchanged, for ordered bounds |
| Utils.ClampInRange | src/utils/index.ts:115-117 | with ordered bounds the result is in range, and clamping twice is clamping once |
| Types.EmptyTransactionPatch | src/contexts/FinanceContext.tsx:352-354 | spreading a partial record that gives no field leaves the transaction as it was |
| Types.TransactionPatchIdempotent | src/contexts/FinanceContext.tsx:352-354 | spreading the same partial record twice is spreading it once |
| Types.FiltersPatchLaterWins | src/contexts/FinanceContext.tsx:452-454 | of two `setFilters` calls in a row, the later one wins on every field it gives |
| Crud.UpdateWhere | src/contexts/FinanceContext.tsx:352-354 | the same length; each matching element is replaced by its update in place, every other one is kept |
| Crud.UpdateByIdUnknown | src/contexts/FinanceContext.tsx:352-354 | updating an id that no element has changes nothing |
| Crud.DeleteByIdUnknown | src/contexts/FinanceContext.tsx:356-358 | deleting an id that no element has changes nothing |
| Crud.DeleteByIdMembership | src/contexts/FinanceContext.tsx:356-358 | a delete keeps exactly the elements with another id |
| Crud.DeleteByIdKeepsOrder | src/contexts/FinanceContext.tsx:356-358 | a delete keeps the survivors in their order |
| Crud.UpdateThenDelete | src/contexts/FinanceContext.tsx:352-358 | an update that keeps ids followed by a delete of that id is the delete alone |
| Crud.UpdateByIdIdempotent | src/contexts/FinanceContext.tsx:352-354 | an update whose change keeps the id and is idempotent is idempotent |
| Crud.MarkPaidEffect | src/contexts/FinanceContext.tsx:360-365 | marking as paid sets `isPaid` and the completed status on the matching transactions, changes nothing else in them, and leaves the others alone |
| Crud.MarkPaidIdempotent | src/contexts/FinanceContext.tsx:360-365 | marking the same transaction as paid twice is marking it once |
| Crud.UpdateKeepsIds | src/contexts/FinanceContext.tsx:352-354 | a partial record that gives no id keeps every transaction's id |
| FinanceStore.DefaultFilters | src/contexts/FinanceContext.tsx:317-326 | no member, every type, no search text, and the range from day 1 to the last day of the current month, which holds the current time |
| FinanceStore.Store.constructor | src/contexts/FinanceContext.tsx:334-340 | the collections the store is given, and the default filters computed at load time |
| FinanceStore.Store.AddTransaction | src/contexts/FinanceContext.tsx:343-350 | the new transaction, with a fresh id and the creation time, goes first; nothing else changes |
| FinanceStore.Store.UpdateTransaction | src/contexts/FinanceContext.tsx:352-354 | the transactions with the id are overwritten by the given fields; nothing else changes |
| FinanceStore.Store.DeleteTransaction | src/contexts/FinanceContext.tsx:356-358 | the transactions with the id are removed; nothing else changes |
| FinanceStore.Store.MarkTransactionAsPaid | src/contexts/FinanceContext.tsx:360-365 | the transactions with the id become paid and completed; nothing else changes |
| FinanceStore.Store.AddGoal | src/contexts/FinanceContext.tsx:367-374 | the new goal goes last; nothing else changes |
| FinanceStore.Store.UpdateGoal | src/contexts/FinanceContext.tsx:376-378 | the goals with the id are overwritten by the given fields; nothing else changes |
| FinanceStore.Store.DeleteGoal | src/contexts/FinanceContext.tsx:380-382 | the goals with the id are removed; nothing else changes |
| FinanceStore.Store.AddCreditCard | src/contexts/FinanceContext.tsx:385-392 | the new card goes last; nothing else changes |
| FinanceStore.Store.UpdateCreditCard | src/contexts/FinanceContext.tsx:394-396 | the cards with the id are overwritten by the given fields; nothing else changes |
| FinanceStore.Store.DeleteCreditCard | src/contexts/FinanceContext.tsx:398-400 | the cards with the id are removed; nothing else changes |
| FinanceStore.Store.AddBankAccount | src/contexts/FinanceContext.tsx:403-410 | the new account goes last; nothing else changes |
| FinanceStore.Store.UpdateBankAccount | src/contexts/FinanceContext.tsx:412-414 | the accounts with the id are overwritten by the given fields; nothing else changes |
| FinanceStore.Store.DeleteBankAccount | src/contexts/FinanceContext.tsx:416-418 | the accounts with the id are removed; nothing else changes |
| FinanceStore.Store.AddFamilyMember | src/contexts/FinanceContext.tsx:421-428 | the new member goes last; nothing else changes |
| FinanceStore.Store.UpdateFamilyMember | src/contexts/FinanceContext.tsx:430-432 | the members with the id are overwritten by the given fields; nothing else changes |
| FinanceStore.Store.DeleteFamilyMember | src/contexts/FinanceContext.tsx:434-436 | the members with the id are removed; nothing else changes |
| FinanceStore.Store.AddCategory | src/contexts/FinanceContext.tsx:439-445 | the new category, which has no creation time, goes last; nothing else changes |
| FinanceStore.Store.DeleteCategory | src/contexts/FinanceContext.tsx:447-449 | the categories with the id are removed, and transactions keep naming them; nothing else changes |
| FinanceStore.Store.SetFilters | src/contexts/FinanceContext.tsx:452-454 | each filter the partial record gives replaces the current one, the rest stay; nothing else changes |
| FinanceStore.Store.ResetFilters | src/contexts/FinanceContext.tsx:456-458 | back to the filters computed at load time; nothing else changes |
| Sorting.Insert | src/contexts/FinanceContext.tsx:588-591 | insertion adds exactly the one element |
| Sorting.InsertAbove | src/contexts/FinanceContext.tsx:588-591 | insertion puts nothing below a bound that the element and the sequence respect |
| Sorting.InsertSorted | src/contexts/FinanceContext.tsx:588-591 | inserting into a sorted sequence keeps it sorted |
| Sorting.SortBy | src/contexts/FinanceContext.tsx:588-591 | the sort returns a permutation of its input, ordered by the key |
| Sorting.InsertSumBy | src/contexts/FinanceContext.tsx:537 | insertion adds the element's share to every sum |
| Sorting.SortBySumBy | src/contexts/FinanceContext.tsx:537 | sorting keeps every sum over the elements |
| Sorting.SortByMembership | src/contexts/FinanceContext.tsx:588-591 | sorting keeps exactly the elements of its input |
| Sorting.SortBySorted | src/pages/Cartoes.tsx:57-58 | an input that is already in order comes back unchanged |
| Queries.FilteredExactly | src/contexts/FinanceContext.tsx:461-492 | a transaction is listed iff it is in the store, matches a non-empty selected member, lies in the date range with both ends included, has the selected type (or the type is 'all') and, for a non-empty search text, matches the search |
| Queries.FilteredKeepsOrder | src/contexts/FinanceContext.tsx:461-492 | filtering keeps the store's order: the filtered list of a concatenation is the concatenation of the filtered parts |
| Queries.FilteredAfterAdd | src/contexts/FinanceContext.tsx:343-350 | a newly added transaction heads the filtered list exactly when it passes the filters; the rest of the list is unchanged |
| Queries.SearchWithoutCategory | src/contexts/FinanceContext.tsx:480-488 | when no category has the transaction's category id, the search matches on the lower-cased description alone |
| Queries.EmptyQueryMatches | src/contexts/FinanceContext.tsx:480-488 | an empty search query is contained in every description |
| Queries.TotalBalanceAddAccount | src/contexts/FinanceContext.tsx:494-498 | adding a bank account raises the total balance by exactly its balance |
| Queries.TotalBalanceAddCard | src/contexts/FinanceContext.tsx:494-498 | adding a credit card lowers the total balance by exactly its current bill |
| Queries.IncomePlusExpenses | src/contexts/FinanceContext.tsx:500-512 | income and expenses of a list add up to the sum of all its amounts |
| Queries.IncomeExpensesAppend | src/contexts/FinanceContext.tsx:500-512 | period income and period expenses are additive over consecutive parts of the transaction list |
| Queries.CategoryPercentage | src/contexts/FinanceContext.tsx:540-544 | 0 when income is 0; otherwise the result times income is 100 times the category total |
| Queries.SavingsRate | src/contexts/FinanceContext.tsx:546-551 | 0 when income is 0; otherwise the result times income is 100 times what is left of income after expenses |
| Queries.SavingsAndSpendingMakeWhole | src/contexts/FinanceContext.tsx:540-551 | with non-zero income, the savings rate plus the expenses' percentage of income is exactly 100 |
| Queries.DistinctCategories | src/contexts/FinanceContext.tsx:519-525 | the grouping keys: no id twice, and an id is a key iff some transaction has that category |
| Queries.GroupTotalAppend | src/contexts/FinanceContext.tsx:519-525 | accumulating one more transaction adds its amount to its own category's total and nothing to any other |
| Queries.GroupTotalAbsent | src/contexts/FinanceContext.tsx:519-525 | a category no transaction has totals 0 |
| Queries.TotalsOverAppendKey | src/contexts/FinanceContext.tsx:519-525 | the totals over one more key grow by that key's total |
| Queries.TotalsOverAppendTransaction | src/contexts/FinanceContext.tsx:519-525 | over distinct keys, one more transaction raises the combined totals by its amount iff its category is one of the keys |
| Queries.GroupTotalsConserve | src/contexts/FinanceContext.tsx:519-525 | conservation: the per-category totals add up to the sum of all amounts |
| Queries.CategoryNameOr | src/contexts/FinanceContext.tsx:531 | the fallback when no category has the id; otherwise the first such category's name, or the fallback when that name is empty |
| Queries.Entries | src/contexts/FinanceContext.tsx:527-536 | one entry per key, in key order, each the entry for its key |
| Queries.EntriesSum | src/contexts/FinanceContext.tsx:527-536 | the entries' totals add up to the group totals of their keys |
| Queries.ExpensesByCategoryConserves | src/contexts/FinanceContext.tsx:514-538 | all category totals together equal the period's expenses |
| Queries.ExpensesByCategoryOrdered | src/contexts/FinanceContext.tsx:537 | entries come largest total first |
| Queries.ExpensesByCategoryEntries | src/contexts/FinanceContext.tsx:514-538 | each entry has its category's total, its name or 'Outros', its colour and its share of the period income (0 unless income is positive); no category appears twice |
| Queries.ExpensesByCategoryComplete | src/contexts/FinanceContext.tsx:514-538 | every category of the period's expenses has an entry |
| Queries.ChartMonth | src/contexts/FinanceContext.tsx:558-560 | each chart month is a valid year and month |
| Queries.Bars | src/contexts/FinanceContext.tsx:558-580 | n bars, the k-th being the income and expenses of the k-th chart month |
| Queries.FlowChartSpec | src/contexts/FinanceContext.tsx:553-583 | the chart has seven bars |
| Queries.GetFlowChartData | src/contexts/FinanceContext.tsx:553-583 | the loop from i = 6 down to 0 builds exactly the seven bars of the specification |
| Queries.FlowChartMonths | src/contexts/FinanceContext.tsx:558-576 | the last bar is the current month with its label, and each bar's month follows the previous one |
| Queries.InMonthExactly | src/contexts/FinanceContext.tsx:559-565 | a transaction counts for a month iff it falls in that month and is not later than 00:00 on the month's last day |
| Queries.FlowChartAddIncome | src/contexts/FinanceContext.tsx:553-583 | a new income dated in the current month (within the counted part) raises the last bar's income by its amount and changes no other bar |
| Queries.PendingExpensesSpec | src/contexts/FinanceContext.tsx:585-592 | the pending list is a permutation of the unpaid expenses with a due date, holds exactly those, and is sorted by due date |
| Queries.PaidIsNotPending | src/contexts/FinanceContext.tsx:360-365 | after marking an id as paid, no pending expense has that id |
| Queries.GetCategoryById | src/contexts/FinanceContext.tsx:594-596 | None iff no category has the id; otherwise the first category with it |
| Queries.GetMemberById | src/contexts/FinanceContext.tsx:598-600 | None iff no member has the id; otherwise the first member with it |
| Queries.GetAccountById | src/contexts/FinanceContext.tsx:602-606 | the first bank account with the id wins; otherwise the first card with it; None iff neither has the id |
| TransactionViews.TableRowsNarrowStore | src/components/dashboard/TransactionsTable.tsx:34-50 | the table lists a transaction iff it is in the store, passes the store's filters and passes the table's search and type filters; the listing keeps the store's order |
| TransactionViews.TableWithoutLocalFilters | src/components/dashboard/TransactionsTable.tsx:34-50 | with an empty search and type 'all' the table lists the store's filtered list unchanged |
| TransactionViews.PageRowsNarrowStore | src/pages/Transacoes.tsx:37-54 | the page lists a transaction iff it is in the store, passes the store's filters and passes all five of the page's own filters; the listing keeps the store's order |
| TransactionViews.PageRowsWithinTableRows | src/pages/Transacoes.tsx:37-54 | the page's rows are the table's rows further narrowed by the selected category, account and member |
| TransactionViews.PageTotals | src/pages/Transacoes.tsx:57-65 | the difference is income minus expenses |
| TransactionViews.DifferenceIsSignedSum | src/pages/Transacoes.tsx:57-65 | the difference is the rows' sum with expenses counted negative; income and expenses add up to all listed amounts |
| TransactionViews.AccountName | src/pages/Transacoes.tsx:73-79 | the bank account's name when a bank account has the id, else the card's name, else 'Desconhecido', in agreement with the store's account lookup |
| TransactionViews.AccountNamePrefersAccount | src/components/dashboard/TransactionsTable.tsx:58-66 | an id that a bank account has is named after a bank account, even when a card shares it |
| TransactionViews.InstallmentCell | src/components/dashboard/TransactionsTable.tsx:243 | the cell is '-' iff there is at most one instalment; otherwise it contains a slash |
| TransactionViews.InstallmentCellReadsBack | src/pages/Transacoes.tsx:301 | for more than one instalment, the digits before the slash read back as the instalment shown and the digits after it as the instalment count |
| TransactionViews.ShownInstallmentDefaults | src/pages/Transacoes.tsx:301 | a missing or zero current instalment shows as 1; any other shows as itself |
| TransactionViews.TablePageSize | src/components/dashboard/TransactionsTable.tsx:32 | the page size is positive, and it is 5 exactly in compact mode |
| TransactionViews.TransactionsTable.constructor | src/components/dashboard/TransactionsTable.tsx:28-30 | the table starts with no search, every type and page 1 |
| TransactionViews.TransactionsTable.SetSearch | src/components/dashboard/TransactionsTable.tsx:119-122 | typing a search sets it and returns to page 1; the type is kept |
| TransactionViews.TransactionsTable.SetType | src/components/dashboard/TransactionsTable.tsx:134-137 | choosing a type sets it and returns to page 1; the search is kept |
| TransactionViews.TransactionsTable.ChangePage | src/components/dashboard/TransactionsTable.tsx:68-70 | a page button sets that page and keeps both filters |
| TransactionViews.TransactionsTable.PageButtons | src/components/dashboard/TransactionsTable.tsx:72-90 | the buttons are the corrected page list for the current page and the page count |
| TransactionViews.TransactionsPage.constructor | src/pages/Transacoes.tsx:28-33 | the page starts with no local filter set and on page 1 |
| TransactionViews.TransactionsPage.RowsWithoutFilters | src/pages/Transacoes.tsx:37-54 | with no local filter set the page lists the store's filtered list unchanged |
| TransactionViews.TransactionsPage.SetSearch | src/pages/Transacoes.tsx:115-118 | the search is set, the page returns to 1, every other filter is kept |
| TransactionViews.TransactionsPage.SetType | src/pages/Transacoes.tsx:126-129 | the type is set, the page returns to 1, every other filter is kept |
| TransactionViews.TransactionsPage.SetCategory | src/pages/Transacoes.tsx:140-143 | the category is set, the page returns to 1, every other filter is kept |
| TransactionViews.TransactionsPage.SetAccount | src/pages/Transacoes.tsx:155-158 | the account is set, the page returns to 1, every other filter is kept |
| TransactionViews.TransactionsPage.SetMember | src/pages/Transacoes.tsx:177-180 | the member is set, the page returns to 1, every other filter is kept |
| TransactionViews.TransactionsPage.ResetFilters | src/pages/Transacoes.tsx:81-88 | every local filter is cleared (so the reset button of line 191 hides) and the page returns to 1 |
| TransactionViews.TransactionsPage.Previous | src/pages/Transacoes.tsx:326 | the page becomes max(1, page - 1); the filters are kept |
| TransactionViews.TransactionsPage.Next | src/pages/Transacoes.tsx:350 | the page becomes min(total, page + 1); the filters are kept |
| TransactionViews.TransactionsPage.GoTo | src/pages/Transacoes.tsx:341 | a window button sets its page; the filters are kept |
| Paging.TotalPages | src/pages/Transacoes.tsx:67 | the ceiling of count / perPage: enough pages for every row, no empty last page, and 0 pages exactly for no rows |
| Paging.PageSlice | src/pages/Transacoes.tsx:68-71 | at most perPage rows, exactly the rows from (page - 1) * perPage up to page * perPage or the end of the list |
| Paging.PagesUpToIsPrefix | src/components/dashboard/TransactionsTable.tsx:52-56 | pages 1 to n, one after another, are the list's first n * perPage rows |
| Paging.PagesCoverList | src/components/dashboard/TransactionsTable.tsx:52-56 | the pages 1 to totalPages, one after another, are exactly the whole list |
| Paging.PagesInRangeAreNonEmpty | src/components/dashboard/TransactionsTable.tsx:52-56 | a page has rows iff its number is at most totalPages |
| Paging.ShownRangeCountsRows | src/pages/Transacoes.tsx:321 | on an existing page, the "Mostrando a a b" range counts exactly the rows of that page |
| Paging.Numbers | src/components/dashboard/TransactionsTable.tsx:76-78 | the numbers lo to hi, in order |
| Paging.ShortPaginationListsAll | src/components/dashboard/TransactionsTable.tsx:75-78 | with at most seven pages every page is listed, in order, as written and as corrected |
| Paging.LongPaginationCases | src/components/dashboard/TransactionsTable.tsx:79-87 | with more than seven pages, the list as written and as corrected, case by case on the current page; they differ only when current is total - 3 |
| Paging.ShapeOrdered | src/components/dashboard/TransactionsTable.tsx:79-87 | each long shape has increasing numbers and no two adjacent gaps |
| Paging.CorrectedShapeMarksGaps | src/components/dashboard/TransactionsTable.tsx:79-87 | in each long shape the corrected rule produces, two numbers side by side are consecutive pages |
| Paging.LongPaginationAsWritten | src/components/dashboard/TransactionsTable.tsx:79-87 | the list as written begins 1, 2, 3 and ends total - 1, total; it holds the current page iff 3 < current < total - 2, a leading gap iff current > 4 and a trailing gap iff current < total - 3; its numbers increase and no gaps touch |
| Paging.PaginationAsWrittenMarksGapsUnlessThirdFromLast | src/components/dashboard/TransactionsTable.tsx:85 | the list as written puts a gap over every hidden page iff current is not total - 3 |
| Paging.PaginationAsWrittenHidesPage | src/components/dashboard/TransactionsTable.tsx:85 | with 8 pages and page 5 current, the list as written is 1 2 3 ... 5 7 8 and page 6 is hidden without a gap |
| Paging.PaginationMarksEveryGap | src/components/dashboard/TransactionsTable.tsx:72-90 | the corrected list keeps the same frame, its numbers increase, no gaps touch, and every hidden page sits under a gap |
| Paging.RenderPagination | src/components/dashboard/TransactionsTable.tsx:72-90 | the imperative construction yields the corrected page list |
| Paging.WindowButtonsRun | src/pages/Transacoes.tsx:335-337 | the window's buttons from index i on are consecutive pages that stop at the last page |
| Paging.PageWindowSpec | src/pages/Transacoes.tsx:335-337 | the window shows at most min(5, total) consecutive pages, all within 1..total, always including the current page, and starts at page 1 with min(5, total) buttons while current is at most 3 |
| Paging.StepsStayInRange | src/pages/Transacoes.tsx:326-351 | previous and next keep an in-range page in range, move it by at most one, and stand still exactly on the first and on the last page |
| NewTransactionForm.AmountFromInput | src/components/modals/NewTransactionModal.tsx:68-72 | an amount is kept iff the digits typed read as a positive number; it is then positive and equals those digits read as cents |
| NewTransactionForm.CategoriesOfType | src/components/modals/NewTransactionModal.tsx:41 | the categories offered are exactly the store's categories of the selected type |
| NewTransactionForm.FormErrors | src/components/modals/NewTransactionModal.tsx:85-106 | an error is recorded for the amount iff it is missing or not above zero, for the description iff it is under three characters once trimmed, for the category iff none is chosen, for the account iff none is chosen, and for no other field |
| NewTransactionForm.NoErrorsIffValid | src/components/modals/NewTransactionModal.tsx:104-105 | no error is recorded exactly when the form is valid |
| Common.TrimIdempotent | src/components/modals/NewTransactionModal.tsx:114 | trimming a trimmed text changes nothing |
| NewTransactionForm.SubmissionOfValidForm | src/components/modals/NewTransactionModal.tsx:108-126 | a valid form submits a transaction with a positive amount, a trimmed description of at least three characters, a category and an account |
| NewTransactionForm.NewTransactionModal.constructor | src/components/modals/NewTransactionModal.tsx:27-38 | the form starts as an expense with every field empty, one instalment, not recurring, no errors |
| NewTransactionForm.NewTransactionModal.Open | src/components/modals/NewTransactionModal.tsx:47-59 | opening resets every transaction field and the errors and keeps the new-category entry as it was |
| NewTransactionForm.NewTransactionModal.SetKind | src/components/modals/NewTransactionModal.tsx:183-196 | the type buttons set the type and nothing else |
| NewTransactionForm.NewTransactionModal.ChangeAmount | src/components/modals/NewTransactionModal.tsx:68-72 | the amount becomes what the typed digits read as, nothing else changes |
| NewTransactionForm.NewTransactionModal.SetMember | src/components/modals/NewTransactionModal.tsx:322 | the empty option selects no member; any other value selects that member |
| NewTransactionForm.NewTransactionModal.SetInstallments | src/components/modals/NewTransactionModal.tsx:364-371 | while not recurring, the select sets the instalment count |
| NewTransactionForm.NewTransactionModal.SetRecurring | src/components/modals/NewTransactionModal.tsx:61-66 | the checkbox sets recurrence, and turning it on brings the instalments back to 1 |
| NewTransactionForm.NewTransactionModal.SetFields | src/components/modals/NewTransactionModal.tsx:243-339 | description, category, account and new-category name take the values given; nothing else changes |
| NewTransactionForm.NewTransactionModal.ShowNewCategory | src/components/modals/NewTransactionModal.tsx:276 | "+ Nova Categoria" opens the inline entry |
| NewTransactionForm.NewTransactionModal.CancelNewCategory | src/components/modals/NewTransactionModal.tsx:298-301 | "Cancelar" closes the inline entry and clears its name |
| NewTransactionForm.NewTransactionModal.AddCategory | src/components/modals/NewTransactionModal.tsx:74-83 | a trimmed name of at least three characters is appended to the store as a category of the selected type and the entry closes and clears; a shorter one changes nothing |
| NewTransactionForm.NewTransactionModal.Validate | src/components/modals/NewTransactionModal.tsx:85-106 | the recorded errors become the form's errors, and the result is true exactly when no error was recorded; only the errors field changes |
| NewTransactionForm.NewTransactionModal.Submit | src/components/modals/NewTransactionModal.tsx:108-126 | it submits exactly when the form is valid; a valid form puts its transaction at the head of the store's list and changes nothing else in the store; an invalid one leaves the store unchanged |
| AddCardForm.DayChecksDiffer | src/components/modals/AddCardModal.tsx:62-70 | the day check as written and the corrected one disagree exactly on non-empty inputs that parseInt reads as NaN |
| AddCardForm.NaNClosingDayAccepted | src/components/modals/AddCardModal.tsx:62-65 | any input starting with a decimal point, ".5" among them, passes the closing-day check as written although it reads as NaN; the corrected check rejects it |
| AddCardForm.LimitRejectedIffZero | src/components/modals/AddCardModal.tsx:72-74 | on the digits-only limit input, the limit is rejected exactly when its digits add up to zero |
| AddCardForm.CardFormErrors | src/components/modals/AddCardModal.tsx:46-79 | the name and holder are checked on both tabs; the balance only on the account tab; both days and the limit only on the card tab; each error is recorded iff its check fails (day check corrected, see Findings) |
| AddCardForm.HeaderErrors | src/components/modals/AddCardModal.tsx:49-55 | given the outcomes of the name and holder checks, an error for each failed one and for nothing else |
| AddCardForm.CardOnlyErrors | src/components/modals/AddCardModal.tsx:61-75 | the card tab records its three errors exactly for the failed checks and keeps the name, holder and balance entries as they were |
| AddCardForm.NoCardErrorsIffValid | src/components/modals/AddCardModal.tsx:77-78 | no error is recorded exactly when the form is valid (day check corrected, see Findings) |
| AddCardForm.DayNumber | src/components/modals/AddCardModal.tsx:94-95 | an accepted day reads as an integer from 1 to 31 |
| AddCardForm.SubmittedCardIsWellFormed | src/components/modals/AddCardModal.tsx:91-100 | a valid card form submits a card with a name of at least three characters, a holder, a positive limit, no bill, days from 1 to 31, and at most four last digits |
| AddCardForm.SubmittedAccountIsWellFormed | src/components/modals/AddCardModal.tsx:85-89 | a valid account form submits an account with a name of at least three characters, a holder and the typed digits as cents |
| AddCardForm.AddCardModal.constructor | src/components/modals/AddCardModal.tsx:15-29 | the form starts on the account tab with every field empty, black theme, no errors |
| AddCardForm.AddCardModal.Open | src/components/modals/AddCardModal.tsx:31-44 | opening resets every field |
| AddCardForm.AddCardModal.SetAccountType | src/components/modals/AddCardModal.tsx:147-160 | switching tabs keeps every field typed |
| AddCardForm.AddCardModal.SetFields | src/components/modals/AddCardModal.tsx:182-308 | name, holder, days and theme take the values given; nothing else changes |
| AddCardForm.AddCardModal.SetBalance | src/components/modals/AddCardModal.tsx:220 | the balance keeps only the digits typed |
| AddCardForm.AddCardModal.SetLimit | src/components/modals/AddCardModal.tsx:277 | the limit keeps only the digits typed |
| AddCardForm.AddCardModal.SetLastDigits | src/components/modals/AddCardModal.tsx:294 | the last digits keep only the digits among at most four characters typed |
| AddCardForm.AddCardModal.Validate | src/components/modals/AddCardModal.tsx:46-79 | the recorded errors become the form's errors (day check corrected) and the result says whether the form is valid |
| AddCardForm.AddCardModal.Submit | src/components/modals/AddCardModal.tsx:81-104 | a valid form appends the bank account or the card to the store, and changes nothing else in the store; an invalid one leaves the store unchanged (day check corrected, see Findings) |
| AddMemberForm.MemberFormErrors | src/components/modals/AddMemberModal.tsx:30-43 | an error for the name iff it is under three characters once trimmed, for the role iff it is under two; none exactly when both pass |
| AddMemberForm.AvatarFor | src/components/modals/AddMemberModal.tsx:48-53 | the trimmed address typed, or the generated avatar seeded with the encoded name when none is typed; never empty |
| AddMemberForm.IncomeFor | src/components/modals/AddMemberModal.tsx:54 | the income is not negative and is the digits typed read as cents, 0 when none |
| AddMemberForm.SubmittedMemberIsWellFormed | src/components/modals/AddMemberModal.tsx:45-58 | a valid form submits a member with a trimmed name of at least three characters, a trimmed role of at least two, and an avatar |
| AddMemberForm.AddMemberModal.constructor | src/components/modals/AddMemberModal.tsx:14-18 | the form starts with every field empty and no errors |
| AddMemberForm.AddMemberModal.Open | src/components/modals/AddMemberModal.tsx:20-28 | opening resets every field and the errors |
| AddMemberForm.AddMemberModal.SetFields | src/components/modals/AddMemberModal.tsx:116-156 | name, role and avatar address take the values given; nothing else changes |
| AddMemberForm.AddMemberModal.SetIncome | src/components/modals/AddMemberModal.tsx:60-63 | the income keeps only the digits typed |
| AddMemberForm.AddMemberModal.Validate | src/components/modals/AddMemberModal.tsx:30-43 | the recorded errors become the form's errors and the result says whether both checks pass |
| AddMemberForm.AddMemberModal.Submit | src/components/modals/AddMemberModal.tsx:45-58 | a valid form appends the member to the store, and changes nothing else in the store; an invalid one leaves the store unchanged |
| QuickPeriods.EarlierIndexEarlierMonth | src/components/dashboard/DashboardHeader.tsx:36-50 | a month with a smaller month index is earlier in the calendar |
| QuickPeriods.FirstDayNotAfterLastDay | src/components/dashboard/DashboardHeader.tsx:36-50 | the first day of a month is not after the last day of the same or a later month |
| QuickPeriods.QuickRange | src/components/dashboard/DashboardHeader.tsx:30-56 | each range starts at 00:00 on a first day of a month and ends at 00:00 on a last day, and is not empty; 'thisYear' is 1 January to 31 December of the current year; the others start 0, 1 or 2 months before the current month and end in the current month, or in the previous one for 'lastMonth' |
| QuickPeriods.ThisMonthIsDefaultRange | src/contexts/FinanceContext.tsx:317-326 | "Este mês" selects the same range the store starts with |
| QuickPeriods.QuickRangeCoversNow | src/components/modals/FiltersMobileModal.tsx:41-67 | every range except 'lastMonth' contains the current moment, up to the end of the range's last day |
| QuickPeriods.LastMonthEndsWhereThisMonthStarts | src/components/modals/FiltersMobileModal.tsx:51-54 | 'lastMonth' ends one day before 'thisMonth' starts, and so before the current moment |
| QuickPeriods.LastThreeMonthsSpansLastMonth | src/components/modals/FiltersMobileModal.tsx:55-58 | 'last3Months' ends with 'thisMonth' and starts before 'lastMonth' starts |
| DashboardHeaderView.NextSelection | src/components/dashboard/DashboardHeader.tsx:22-28 | clicking the selected member clears the selection; clicking any other member selects it |
| DashboardHeaderView.ClickingTwice | src/components/dashboard/DashboardHeader.tsx:22-28 | two clicks on the same member restore a selection of that member and otherwise leave nobody selected |
| DashboardHeaderView.VisibleMembers | src/components/dashboard/DashboardHeader.tsx:159 | the avatars are the first three members, or all of them when there are fewer |
| DashboardHeaderView.DashboardHeader.constructor | src/components/dashboard/DashboardHeader.tsx:10 | the date picker starts closed |
| DashboardHeaderView.DashboardHeader.ToggleDatePicker | src/components/dashboard/DashboardHeader.tsx:96 | the date button flips the picker open or closed |
| DashboardHeaderView.DashboardHeader.CloseDatePicker | src/components/dashboard/DashboardHeader.tsx:117 | the overlay closes the picker |
| DashboardHeaderView.DashboardHeader.MemberClick | src/components/dashboard/DashboardHeader.tsx:22-28 | only the store's member filter changes, to the next selection |
| DashboardHeaderView.DashboardHeader.QuickDateRange | src/components/dashboard/DashboardHeader.tsx:30-56 | only the store's date range changes, to the quick range; the picker closes |
| DashboardHeaderView.DashboardHeader.Search | src/components/dashboard/DashboardHeader.tsx:75 | only the store's search text changes, to the text typed |
| MobileFilters.ApplyPatch | src/components/modals/FiltersMobileModal.tsx:29-39 | the patch applied never carries a search text |
| MobileFilters.ApplyingTheCopyChangesNothing | src/components/modals/FiltersMobileModal.tsx:20-39 | applying, unedited, the copy taken on opening leaves the filters as they were |
| MobileFilters.ApplyKeepsSearch | src/components/modals/FiltersMobileModal.tsx:29-39 | applying sets type, member and dates to the panel's values and keeps the search text |
| MobileFilters.FiltersMobileModal.constructor | src/components/modals/FiltersMobileModal.tsx:14-17 | the panel starts from the filters in force |
| MobileFilters.FiltersMobileModal.Open | src/components/modals/FiltersMobileModal.tsx:20-27 | opening copies the filters in force again |
| MobileFilters.FiltersMobileModal.SetType | src/components/modals/FiltersMobileModal.tsx:107 | a type chip sets the local type only |
| MobileFilters.FiltersMobileModal.SetMember | src/components/modals/FiltersMobileModal.tsx:130-145 | a member chip (or "Todos") sets the local member only |
| MobileFilters.FiltersMobileModal.QuickPeriod | src/components/modals/FiltersMobileModal.tsx:41-67 | a quick period sets the local dates to its range and nothing else |
| MobileFilters.FiltersMobileModal.SetStartDate | src/components/modals/FiltersMobileModal.tsx:213 | the start-date input sets the local start date only |
| MobileFilters.FiltersMobileModal.SetEndDate | src/components/modals/FiltersMobileModal.tsx:224 | the end-date input sets the local end date only |
| MobileFilters.FiltersMobileModal.Apply | src/components/modals/FiltersMobileModal.tsx:29-39 | the store's filters become the panel's type, member and dates with the search text kept; nothing else in the store changes |
| Progress.RoundedPercent | src/pages/Cartoes.tsx:18-20 | for a non-zero whole, an integer within half a point of part / whole * 100; for a zero whole, +Infinity for a positive part, -Infinity for a negative one and NaN for 0 / 0 |
| Progress.RoundedPercentAbove | src/pages/Cartoes.tsx:18-20 | for a positive whole, the rounded percentage exceeds n exactly when the part is at least n + 0.5 percent of the whole |
| Progress.RoundedPercentMonotone | src/pages/Objetivos.tsx:21-23 | for a positive whole, a larger part never shows a smaller percentage |
| Progress.RoundedPercentBetween | src/pages/Objetivos.tsx:21-23 | a part between 0 and a positive whole shows between 0 and 100 percent |
| Progress.WholeIsHundredPercent | src/pages/Objetivos.tsx:21-23 | the whole of itself shows exactly 100 percent |
| Progress.UsageColorOfShare | src/pages/Cartoes.tsx:121 | for a positive limit the bar is red iff the bill is at least 80.5% of it, lime iff it is from 50.5% to under 80.5%, green iff under 50.5% |
| Progress.UsageColorOfZeroWhole | src/components/modals/CardDetailsModal.tsx:102 | with a zero limit the bar is red for any positive bill and green otherwise |
| Progress.BarWidth | src/pages/Cartoes.tsx:123 | the width is never +Infinity nor above 100; a percentage of at most 100 is kept, one above 100 becomes 100, and NaN (0/0 usage) stays NaN |
| Progress.BarWidthOfShare | src/components/modals/CardDetailsModal.tsx:104 | for a positive whole and a part that is not negative the width is finite in 0..100: the percentage up to the whole, 100 from the whole on |
| CardViews.AvailableLimit | src/pages/Cartoes.tsx:62 | the available limit plus the bill is the limit; it is negative exactly when the bill exceeds the limit |
| CardViews.UsageAgreesWithAvailable | src/components/modals/CardDetailsModal.tsx:29-30 | for a positive limit and a bill that is not negative, a non-negative available limit goes with a usage of 0..100 percent and a negative one with at least 100 percent |
| CardViews.HolderLabel | src/pages/Cartoes.tsx:60-82 | never empty; 'Sem titular' when no member has the holder id; otherwise the first such member's name, or 'Sem titular' when that name is empty |
| CardViews.ByLargestBillSpec | src/pages/Cartoes.tsx:57-58 | the listing holds each card as often as the store does, bills never increase along it, and listing it again changes nothing |
| CardViews.ListCards | src/pages/Cartoes.tsx:57-58 | the store's card array is itself reordered largest bill first and listed in that order; nothing else in the store changes |
| CardViews.CardsPage.constructor | src/pages/Cartoes.tsx:15-16 | the page starts with the new-card window closed and no card selected |
| CardViews.CardsPage.OpenAddModal | src/pages/Cartoes.tsx:27-49 | both buttons open the new-card window and keep the selection |
| CardViews.CardsPage.CloseAddModal | src/pages/Cartoes.tsx:165 | closing the new-card window keeps the selection |
| CardViews.CardsPage.SelectCard | src/pages/Cartoes.tsx:138-141 | a card click or "Ver Detalhes" selects that card |
| CardViews.CardsPage.CloseDetails | src/pages/Cartoes.tsx:171 | closing the details clears the selection |
| CardViews.CardExpenses | src/components/modals/CardDetailsModal.tsx:33-34 | a transaction is listed iff it is in the store and is an expense charged to the card |
| CardViews.RecentCardExpenses | src/components/modals/CardDetailsModal.tsx:33-35 | the first ten of the card's expenses in store order, or all of them when fewer; each is a store expense on the card |
| CardViews.CardDetails | src/components/modals/CardDetailsModal.tsx:20-35 | nothing is shown iff the window is closed, no card id is given, or no card has it; otherwise the first card with that id, with its holder, available limit, usage and recent expenses |
| CardViews.SelectedCardIsShown | src/pages/Cartoes.tsx:168-171 | selecting a store card whose id is unique opens the details of that very card |
| CardViews.ExpenseCategoryLabel | src/components/modals/CardDetailsModal.tsx:153 | 'Sem categoria' when no category has the id; otherwise the first such category's name, or 'Sem categoria' when that name is empty |
| NextExpenses.UpcomingExpenses | src/components/dashboard/NextExpensesWidget.tsx:24 | the first five pending expenses, or all of them when fewer |
| NextExpenses.UpcomingAreTheSoonest | src/components/dashboard/NextExpensesWidget.tsx:24 | the widget lists store expenses that are unpaid and have a due date, soonest first, and none it leaves out is due before one it shows |
| NextExpenses.EmptyStateIffNothingPending | src/components/dashboard/NextExpensesWidget.tsx:45 | the empty state shows exactly when no store transaction is a pending expense |
| NextExpenses.DigitsShown | src/components/dashboard/NextExpensesWidget.tsx:34 | never empty: the card's last digits when given and non-empty, else '0000' |
| NextExpenses.AccountInfo | src/components/dashboard/NextExpensesWidget.tsx:26-38 | 'Desconhecido' when nothing has the id; the first such card's label when a card has it; otherwise the name of the first bank account with the id |
| NextExpenses.MarkAsPaid | src/components/dashboard/NextExpensesWidget.tsx:40-43 | the row's transaction is marked paid in the store and nothing else changes |
| NextExpenses.MarkedRowLeaves | src/components/dashboard/NextExpensesWidget.tsx:40-43 | after a row is marked as paid, no listed row has its id |
| GoalsPage.GoalBar | src/pages/Objetivos.tsx:21-77 | for a positive target, saving more never lowers the progress; a reached target shows a full bar; savings up to the target show a bar equal to the progress, within 0..100 |
| GoalsPage.DeadlineLabel | src/pages/Objetivos.tsx:13-19 | 'Sem prazo' without a deadline, otherwise the month-and-year label of the deadline |
| GoalsPage.GoalMember | src/pages/Objetivos.tsx:39 | an avatar shows iff the goal has a non-empty member id that some member has, and it is the first member with that id, as `find` gives |
| SidebarState.Sidebar.constructor | src/hooks/useSidebar.ts:13-14 | the flag starts at the value given |
| SidebarState.Sidebar.Default | src/hooks/useSidebar.ts:13-14 | with no argument the sidebar starts expanded |
| SidebarState.Sidebar.Toggle | src/hooks/useSidebar.ts:16-18 | toggling flips the flag |
| SidebarState.Sidebar.Expand | src/hooks/useSidebar.ts:20-22 | afterwards the sidebar is expanded |
| SidebarState.Sidebar.Collapse | src/hooks/useSidebar.ts:24-26 | afterwards the sidebar is collapsed |

## Left out

- Mock data: the seeded transactions and goals (src/contexts/FinanceContext.tsx:124-201) use `Math.random`. The store's constructor takes the initial collections as parameters.
- Clock and ids: `new Date()`, `uuidv4` and `crypto.randomUUID` become `now` and `freshId` parameters. Nothing about them is modelled.
- Locale formatting through `Intl` is left out: `formatCurrency`, `formatDate`, `formatDateLong`, `formatDateRange` and the header's date label. The goal deadline's month-and-year text is a function parameter.
- `formatCompactCurrency`, the donut-chart geometry, animated values, `debounce` and `useMediaQuery`: floating-point drawing, timers and browser APIs with no state of the store.
- Binary floating point: money and percentages are exact reals, and negative zero is not distinguished. `toFixed` is rounding of the exact value to the given number of decimals, without the double's own representation error.
- Queries.ExpensesByCategory: the entries before sorting follow the first appearance of each category id. `Object.entries` would list integer-like ids first, in numeric order. The ids the store creates are never integer-like.
- Common.ToLower: lower-cases the ASCII letters A-Z only. Accented capitals (such as 'É' in a description) are not lowered, whereas `toLowerCase` lowers them.
- FormInput.ParseInt: the hexadecimal prefix "0x" of `parseInt` is not modelled. Every input it sees here comes from a digits-only field or a number input.
- Validation.HasMinLength: JavaScript's `.length` counts UTF-16 code units, while the model counts characters. The same holds for the name and role checks (src/components/modals/AddMemberModal.tsx:33, :37; src/components/modals/AddCardModal.tsx:49) and the new-category and description checks (src/components/modals/NewTransactionModal.tsx:75, :92). They differ on characters outside the Basic Multilingual Plane: "😀😀" has length 4 in JavaScript and 2 in the model, so a name of two emoji passes the source's check and fails the model's.
- MobileFilters.FiltersMobileModal.SetStartDate and MobileFilters.FiltersMobileModal.SetEndDate: clearing a date input gives `new Date('')`, an Invalid Date. The next render's `toISOString()` then throws (src/components/modals/FiltersMobileModal.tsx:212-213, :223-224). The model's dates are always valid calendar dates, so these handlers take a picked date, and the clearing path and its crash are not modelled.
- Utils.GroupBy: groups are keyed by strings in a map. A JavaScript object literal inherits keys such as "constructor" and "__proto__", so `groupBy` behaves differently for an item whose key is one of them; that case is not modelled.
- NewTransactionForm.AmountFromInput: the amount is kept as the number it denotes. The round trip through `toString` and `parseFloat` is exact on reals, but is not exact on doubles.
- MobileFilters.FiltersMobileModal.SetStartDate: the date input's text parsing, and the UTC reading that `new Date("yyyy-mm-dd")` gives, are a parameter. Time zones are left out everywhere.
- CardViews.ByLargestBillSpec: states a permutation, the order and idempotence. It does not state that cards with equal bills keep their relative order, although the sort used is stable.
- The "Adicionar Despesa" buttons of the cards page and of the card details window (src/pages/Cartoes.tsx:146-154) are left out: their handlers are empty, and so is the widget's `onAddExpense` callback.
- `useFinance` outside a provider throws. The model has one store object, so there is no missing provider.
- React re-rendering is not modelled. Each handler is a method that runs to completion, and the state it writes is read back by the next call.

## Findings

| source | as written | input that shows it | evidently intended | confidence | as-written member | corrected member |
|---|---|---|---|---|---|---|
| src/components/dashboard/TransactionsTable.tsx:85 | the trailing '...' is pushed only when currentPage < totalPages - 3 | totalPages = 8, currentPage = 5: the list is 1 2 3 ... 5 7 8, and page 6 is neither listed nor under a gap | a trailing gap whenever a page between the current page and totalPages - 1 is hidden, i.e. when currentPage < totalPages - 2 | not executed | Paging.PaginationAsWrittenHidesPage | Paging.PaginationMarksEveryGap |
| src/components/modals/AddCardModal.tsx:62-70 | a day is rejected when it is empty, below 1 or above 31; `parseInt` gives NaN for a non-empty input such as ".5", and NaN fails both comparisons | closingDay = ".5" passes validation, and the card is stored with closingDay NaN | a day is accepted only when it reads as a number from 1 to 31, as the message "Dia deve ser entre 1 e 31" says | not executed | AddCardForm.NaNClosingDayAccepted | AddCardForm.SubmittedCardIsWellFormed |
