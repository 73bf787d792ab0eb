/** The family-member form (src/components/modals/AddMemberModal.tsx): name, role,
    optional avatar address and monthly income typed as cents, its validation and the
    member it hands to the store. */
module AddMemberForm {
  import opened Common
  import opened Calendar
  import opened Types
  import opened Crud
  import opened FinanceStore
  import opened Currency
  import opened FormInput

  /** The fields `validate` can report on. */
  datatype MemberField = NameField | RoleField

  const NameMessage := "Por favor, insira um nome válido"
  const RoleMessage := "Por favor, informe a função na família"

  /** The address of the generated avatar; the encoded name follows it. */
  const AvatarService := "https://api.dicebear.com/7.x/avataaars/svg?seed="

  /** The name check: empty, or under three characters once trimmed. */
  predicate NameTooShort(name: string) {
    name == "" || |Trim(name)| < 3
  }

  /** The role check: empty, or under two characters once trimmed. */
  predicate RoleTooShort(role: string) {
    role == "" || |Trim(role)| < 2
  }

  /** The error messages `validate` records, one per failed field. */
  function MemberFormErrors(name: string, role: string): (r: map<MemberField, string>)
    ensures NameField in r <==> NameTooShort(name)
    ensures RoleField in r <==> RoleTooShort(role)
    ensures r == map[] <==> !NameTooShort(name) && !RoleTooShort(role)
  {
    var e1 := RecordIf(map[], NameTooShort(name), NameField, NameMessage);
    var r := RecordIf(e1, RoleTooShort(role), RoleField, RoleMessage);
    assert r != map[] <==> NameField in r || RoleField in r by {
      assert r.Keys <= {NameField, RoleField};
    }
    r
  }

  /** The avatar stored: the trimmed address typed, or, when that is empty, the
      generated one seeded with the name as typed. `encode` is `encodeURIComponent`. */
  function AvatarFor(avatarUrl: string, name: string, encode: string -> string): (r: string)
    ensures r != ""
    ensures Trim(avatarUrl) != "" ==> r == Trim(avatarUrl)
    ensures Trim(avatarUrl) == "" ==> r == AvatarService + encode(name)
  {
    var typed := Trim(avatarUrl);
    if typed != "" then typed else AvatarService + encode(name)
  }

  /** The monthly income stored: the digits typed read as cents, 0 when none. */
  function IncomeFor(monthlyIncome: string): (r: real)
    requires AllDigitChars(monthlyIncome)
    ensures r >= 0.0 && r * 100.0 == DigitsValue(monthlyIncome) as real
  {
    if monthlyIncome != "" then CentsValue(monthlyIncome) else 0.0
  }

  /** The member `handleSubmit` passes to `addFamilyMember`, dated `now`; it has no
      e-mail address. */
  function MemberDraft(name: string, role: string, avatarUrl: string, monthlyIncome: string,
                       encode: string -> string, now: Date): FamilyMember
    requires AllDigitChars(monthlyIncome)
  {
    FamilyMember("", Trim(name), Trim(role), AvatarFor(avatarUrl, name, encode), None,
                 Some(IncomeFor(monthlyIncome)), now)
  }

  /** What the form's own checks demand of a member: a trimmed name of at least three
      characters, a trimmed role of at least two, and an avatar. */
  predicate MeetsFormRules(m: FamilyMember) {
    && |m.name| >= 3 && Trim(m.name) == m.name
    && |m.role| >= 2 && Trim(m.role) == m.role
    && m.avatarUrl != ""
  }

  /** A valid form submits a member that meets the form's rules. */
  lemma SubmittedMemberIsWellFormed(name: string, role: string, avatarUrl: string, monthlyIncome: string,
                                    encode: string -> string, now: Date)
    requires !NameTooShort(name) && !RoleTooShort(role)
    requires AllDigitChars(monthlyIncome)
    ensures MeetsFormRules(MemberDraft(name, role, avatarUrl, monthlyIncome, encode, now))
  {
    var m := MemberDraft(name, role, avatarUrl, monthlyIncome, encode, now);
    assert m.name == Trim(name) && m.role == Trim(role) && m.avatarUrl != "";
    TrimIdempotent(name);
    TrimIdempotent(role);
  }

  class AddMemberModal {
    var name: string
    var role: string
    var avatarUrl: string
    var monthlyIncome: string
    var errors: map<MemberField, string>

    /** The income input keeps digits only. */
    predicate Valid()
      reads this`monthlyIncome
    {
      AllDigitChars(monthlyIncome)
    }

    constructor()
      ensures Valid()
      ensures name == "" && role == "" && avatarUrl == "" && monthlyIncome == "" && errors == map[]
    {
      name := "";
      role := "";
      avatarUrl := "";
      monthlyIncome := "";
      errors := map[];
    }

    /** Opening the form resets every field. */
    method Open()
      modifies this
      ensures Valid()
      ensures name == "" && role == "" && avatarUrl == "" && monthlyIncome == "" && errors == map[]
    {
      name := "";
      role := "";
      avatarUrl := "";
      monthlyIncome := "";
      errors := map[];
    }

    /** The name, role and avatar inputs take the value as typed. */
    method SetFields(name: string, role: string, avatarUrl: string)
      requires Valid()
      modifies this
      ensures Valid()
      ensures this.name == name && this.role == role && this.avatarUrl == avatarUrl
      ensures monthlyIncome == old(monthlyIncome) && errors == old(errors)
    {
      this.name := name;
      this.role := role;
      this.avatarUrl := avatarUrl;
    }

    /** `handleIncomeChange`: only the digits typed are kept. */
    method SetIncome(input: string)
      requires Valid()
      modifies this
      ensures Valid() && monthlyIncome == DigitsOnly(input)
      ensures name == old(name) && role == old(role) && avatarUrl == old(avatarUrl) && errors == old(errors)
    {
      monthlyIncome := DigitsOnly(input);
    }

    /** `validate`: records one message per failed field and reports whether none
        failed. */
    method Validate() returns (ok: bool)
      requires Valid()
      modifies this`errors
      ensures Valid()
      ensures errors == MemberFormErrors(old(name), old(role))
      ensures ok <==> !NameTooShort(old(name)) && !RoleTooShort(old(role))
    {
      var newErrors := MemberFormErrors(name, role);
      ok := newErrors == map[];
      errors := newErrors;
    }

    /** `handleSubmit`: a valid form appends the member to the store; an invalid one
        changes only the recorded errors. */
    method Submit(store: Store, freshId: Id, now: Date, encode: string -> string) returns (submitted: bool)
      requires Valid()
      modifies this`errors, store
      ensures Valid()
      ensures submitted <==> !NameTooShort(name) && !RoleTooShort(role)
      ensures errors == MemberFormErrors(name, role)
      ensures submitted ==> (store.familyMembers ==
        old(store.familyMembers) + [NewFamilyMember(MemberDraft(name, role, avatarUrl, monthlyIncome, encode, now), freshId, now)])
      ensures !submitted ==> store.familyMembers == old(store.familyMembers)
      ensures store.transactions == old(store.transactions) && store.goals == old(store.goals)
      ensures store.creditCards == old(store.creditCards) && store.bankAccounts == old(store.bankAccounts)
      ensures store.categories == old(store.categories) && store.filters == old(store.filters)
    {
      submitted := Validate();
      if submitted {
        store.AddFamilyMember(MemberDraft(name, role, avatarUrl, monthlyIncome, encode, now), freshId, now);
      }
    }
  }
}
