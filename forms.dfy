/**
 * The forms that read or change bank accounts (forms.py): the account choice
 * of the import form, the duplicate check of the account form, and the form
 * that makes one account the user's main account.
 */
module Forms {
  import opened Wrappers
  import opened Models

  /** Whether a bank type is one of the values of `BANK_CHOICES`. */
  predicate IsBankChoice(bankType: string) {
    exists i :: 0 <= i < |BANK_CHOICES| && BANK_CHOICES[i].0 == bankType
  }

  /**
   * The accounts `CSVImportForm` offers: for a given user, the primary keys of
   * that user's accounts whose bank type is a registered choice, ascending;
   * without a user the queryset stays empty.
   */
  function ImportableAccounts(accs: seq<BankAccount>, user: Option<UserId>): (pks: seq<nat>)
    ensures user.None? ==> pks == []
    ensures forall k :: 0 <= k < |pks| ==> pks[k] < |accs|
    ensures forall pk :: pk in pks <==> user.Some? && 0 <= pk < |accs| && accs[pk].user == user.value && IsBankChoice(accs[pk].bankType)
    ensures forall k, l :: 0 <= k < l < |pks| ==> pks[k] < pks[l]
  {
    if user.None? || accs == [] then []
    else
      var last := |accs| - 1;
      var rest := ImportableAccounts(accs[..last], user);
      assert forall pk :: 0 <= pk < last ==> accs[..last][pk] == accs[pk];
      if accs[last].user == user.value && IsBankChoice(accs[last].bankType) then rest + [last] else rest
  }

  /** The only offered bank type is "n26". */
  lemma OnlyN26IsImportable(accs: seq<BankAccount>, user: UserId)
    ensures forall pk :: pk in ImportableAccounts(accs, Some(user)) ==> accs[pk].bankType == "n26"
  {
    forall pk | pk in ImportableAccounts(accs, Some(user))
      ensures accs[pk].bankType == "n26"
    {
      assert IsBankChoice(accs[pk].bankType);
      var i :| 0 <= i < |BANK_CHOICES| && BANK_CHOICES[i].0 == accs[pk].bankType;
      assert i == 0;
    }
  }

  const DUPLICATE_ACCOUNT_MESSAGE := "You already have an account with this name, IBAN, and bank type."
  const INVALID_ACCOUNT_MESSAGE := "Conto non valido o non appartenente all'utente."

  /** Python truthiness of an optional form value: present and non-empty. */
  predicate Filled(value: Option<string>) {
    value.Some? && value.value != ""
  }

  /**
   * `BankAccountForm.clean`: a `ValidationError` exactly when name, IBAN and
   * bank type are all filled in and the user already holds an account with
   * those three values; a missing value skips the check.
   */
  function CleanBankAccount(accs: seq<BankAccount>, user: UserId, name: Option<string>, iban: Option<string>, bankType: Option<string>)
    : (r: Option<Failure>)
    ensures r.Some? <==> (
      && Filled(name) && Filled(iban) && Filled(bankType)
      && (exists pk :: 0 <= pk < |accs| && accs[pk].user == user && accs[pk].name == name.value &&
           accs[pk].iban == iban.value && accs[pk].bankType == bankType.value))
    ensures r.Some? ==> r.value == ValidationError(DUPLICATE_ACCOUNT_MESSAGE)
  {
    if Filled(name) && Filled(iban) && Filled(bankType) &&
       exists pk :: 0 <= pk < |accs| && accs[pk].user == user && accs[pk].name == name.value &&
         accs[pk].iban == iban.value && accs[pk].bankType == bankType.value
    then Some(ValidationError(DUPLICATE_ACCOUNT_MESSAGE))
    else None
  }

  /** `SetMainAccountForm.clean_account_id`: the id is kept exactly when it names one of the user's accounts. */
  function CleanAccountId(accs: seq<BankAccount>, user: UserId, accountId: int): (r: Result<int, Failure>)
    ensures r.Ok? <==> 0 <= accountId < |accs| && accs[accountId].user == user
    ensures r.Ok? ==> r.value == accountId
    ensures r.Err? ==> r.error == ValidationError(INVALID_ACCOUNT_MESSAGE)
  {
    if 0 <= accountId < |accs| && accs[accountId].user == user then Ok(accountId)
    else Err(ValidationError(INVALID_ACCOUNT_MESSAGE))
  }

  /**
   * `SetMainAccountForm.save`: clear the flag on all the user's accounts, look
   * the selected account up among them, set its flag and save it. Afterwards
   * the selected account is the user's only main account, and no account of
   * another user has changed.
   */
  function SetMain(accs: seq<BankAccount>, user: UserId, accountId: int): (o: Outcome<seq<BankAccount>>)
    ensures |o.state| == |accs|
    ensures o.failure == Some(DoesNotExist) <==> !(0 <= accountId < |accs| && accs[accountId].user == user)
    ensures o.failure == Some(IntegrityError) <==>
      0 <= accountId < |accs| && accs[accountId].user == user && IbanTaken(accs, accs[accountId].iban, Some(accountId))
    ensures o.failure.None? ==>
      forall i :: 0 <= i < |accs| && accs[i].user == user ==> (o.state[i].mainAccount <==> i == accountId)
    ensures forall i :: 0 <= i < |accs| ==> o.state[i].(mainAccount := accs[i].mainAccount) == accs[i]
    ensures forall i :: 0 <= i < |accs| && accs[i].user != user ==> o.state[i] == accs[i]
    ensures forall i :: 0 <= i < |accs| && accs[i].user == user && i != accountId ==> !o.state[i].mainAccount
    ensures AtMostOneMain(accs) ==> AtMostOneMain(o.state)
    ensures UniqueIbans(accs) ==> UniqueIbans(o.state)
  {
    var cleared := ClearMainFlags(accs, user);
    assert forall j :: 0 <= j < |accs| ==> cleared[j].iban == accs[j].iban;
    if !(0 <= accountId < |cleared| && cleared[accountId].user == user) then
      Outcome(cleared, Some(DoesNotExist))
    else
      Save(cleared, Some(accountId), cleared[accountId].(mainAccount := true))
  }

  /** An id that `clean_account_id` accepted saves without error while IBANs are unique. */
  lemma CleanedIdSaves(accs: seq<BankAccount>, user: UserId, accountId: int)
    requires UniqueIbans(accs)
    requires CleanAccountId(accs, user, accountId).Ok?
    ensures SetMain(accs, user, accountId).failure.None?
  {
  }

  /** `SetMainAccountForm.save` on the store. */
  method SaveMainAccount(db: Database, user: UserId, accountId: int) returns (failure: Option<Failure>)
    modifies db
    ensures var o := SetMain(old(db.accounts), user, accountId); db.accounts == o.state && failure == o.failure
    ensures db.categories == old(db.categories) && db.transactions == old(db.transactions)
  {
    db.accounts := ClearMainFlags(db.accounts, user);
    if !(0 <= accountId < |db.accounts| && db.accounts[accountId].user == user) {
      return Some(DoesNotExist);
    }
    var account := db.accounts[accountId].(mainAccount := true);
    failure := db.SaveAccount(Some(accountId), account);
  }
}
