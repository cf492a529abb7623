/**
 * The N26 importer (n26_importer.py) and the import pipeline of
 * base_importer.py run with the N26 hooks: seed the catalogue, drop the
 * header, and for every row whose amount parses find-or-create the main
 * account, the transfer account, the category and the transaction.
 */
module N26Importer {
  import opened Wrappers
  import opened Text
  import opened Models
  import BaseImporter

  type Row = BaseImporter.Row
  type CategorySpec = BaseImporter.CategorySpec

  const BANK_NAME := "N26"

  const CATEGORIES: seq<CategorySpec> := [
    BaseImporter.CategorySpec("Entrata", "attach_money", true),
    BaseImporter.CategorySpec("Trasporto & Auto", "directions_car", false),
    BaseImporter.CategorySpec("Stipendio", "payments", true),
    BaseImporter.CategorySpec("Casa & Utenze", "home", false),
    BaseImporter.CategorySpec("Tasse e multe", "gavel", false),
    BaseImporter.CategorySpec("Altro", "category", false),
    BaseImporter.CategorySpec("Cibo & Spesa", "shopping_cart", false),
    BaseImporter.CategorySpec("ATM", "atm", false),
    BaseImporter.CategorySpec("Assicurazioni & Finanza", "account_balance", false),
    BaseImporter.CategorySpec("Shopping", "store", false),
    BaseImporter.CategorySpec("Bar & Ristoranti", "restaurant", false),
    BaseImporter.CategorySpec("Spese aziendali", "business_center", false),
    BaseImporter.CategorySpec("Cash26", "credit_card", false),
    BaseImporter.CategorySpec("Educazione", "school", false),
    BaseImporter.CategorySpec("Famiglia & Amici", "people", false),
    BaseImporter.CategorySpec("Cure sanitarie & Farmacia", "local_hospital", false),
    BaseImporter.CategorySpec("Tempo libero & Intrattenimento", "sports_esports", false),
    BaseImporter.CategorySpec("Multimedia & Elettronica", "devices", false),
    BaseImporter.CategorySpec("N26 sponsorizzazioni", "star", true),
    BaseImporter.CategorySpec("Risparmio & Investimenti", "trending_up", false),
    BaseImporter.CategorySpec("Sottoscrizioni & Donazioni", "favorite", false),
    BaseImporter.CategorySpec("Viaggi & vacanze", "flight", false)
  ]

  /** The position of the fallback category "Altro" in CATEGORIES. */
  const ALTRO: nat := 5

  const CSV_FIELDS: map<string, nat> := map[
    "booking_date" := 0, "value_date" := 1, "partner_name" := 2, "partner_iban" := 3,
    "type" := 4, "payment_ref" := 5, "account_name" := 6, "amount" := 7,
    "original_amount" := 8, "original_currency" := 9, "exchange_rate" := 10]
  const BOOKING_DATE: nat := 0
  const PARTNER_NAME: nat := 2
  const PARTNER_IBAN: nat := 3
  const TYPE: nat := 4
  const PAYMENT_REF: nat := 5
  const AMOUNT: nat := 7

  const DEBIT_TRANSFER := "Debit Transfer"
  const GENERATED_TRANSFER_ACCOUNT := "GENERATED_TRANSFER_ACCOUNT"

  /**
   * The field layout has no "category" column, so `get_category` always takes
   * its KeyError branch and asks for the fallback "Altro", which the
   * catalogue holds (once, as an expense category with the generic icon).
   */
  lemma CategoryAlwaysFallback()
    ensures "category" !in CSV_FIELDS
    ensures CSV_FIELDS["booking_date"] == BOOKING_DATE && CSV_FIELDS["partner_name"] == PARTNER_NAME
    ensures CSV_FIELDS["partner_iban"] == PARTNER_IBAN && CSV_FIELDS["type"] == TYPE
    ensures CSV_FIELDS["payment_ref"] == PAYMENT_REF && CSV_FIELDS["amount"] == AMOUNT
    ensures CATEGORIES[ALTRO] == BaseImporter.CategorySpec(BaseImporter.FALLBACK_CATEGORY, BaseImporter.FALLBACK_ICON, false)
    ensures forall i :: 0 <= i < |CATEGORIES| && i != ALTRO ==> CATEGORIES[i].name != BaseImporter.FALLBACK_CATEGORY
  {
  }

  /** `get_description`: "partner | ref" when both are present, else whichever is; the partner is not stripped, the reference is. */
  function Description(row: Row): (r: string)
    requires PAYMENT_REF < |row|
    ensures r == "" <==> row[PARTNER_NAME] == "" && Strip(row[PAYMENT_REF]) == ""
    ensures row[PARTNER_NAME] == "" ==> r == Strip(row[PAYMENT_REF])
    ensures row[PARTNER_NAME] != "" && Strip(row[PAYMENT_REF]) == "" ==> r == row[PARTNER_NAME]
    ensures row[PARTNER_NAME] != "" && Strip(row[PAYMENT_REF]) != "" ==>
      r == row[PARTNER_NAME] + " | " + Strip(row[PAYMENT_REF])
  {
    var partner := row[PARTNER_NAME];
    var ref := Strip(row[PAYMENT_REF]);
    if partner != "" && ref != "" then partner + " | " + ref
    else if partner != "" then partner
    else ref
  }

  /** `get_transaction_type`: a debit transfer with a partner name is a transfer; otherwise the base rule on the sign. */
  function TransactionType(row: Row, amount: real): (t: TxnType)
    requires TYPE < |row|
    ensures t == TRSF <==> row[TYPE] == DEBIT_TRANSFER && row[PARTNER_NAME] != ""
    ensures t != TRSF ==> t == BaseImporter.TransactionType(amount)
  {
    if row[TYPE] == DEBIT_TRANSFER && row[PARTNER_NAME] != "" then TRSF
    else BaseImporter.TransactionType(amount)
  }

  /** `is_valid_row` with the N26 amount column. */
  predicate IsValidRow(lib: BaseImporter.Library, row: Row) {
    BaseImporter.IsValidRow(lib, row, AMOUNT)
  }

  /** `get_amount` on a valid row: the value `float()` reads from the amount column. */
  function Amount(lib: BaseImporter.Library, row: Row): (r: real)
    requires IsValidRow(lib, row)
    ensures lib.parseFloat(row[AMOUNT]) == Some(r)
  {
    lib.parseFloat(row[AMOUNT]).value
  }

  /**
   * `get_transfer_account`: None unless the row is a transfer; the user's
   * account holding the partner IBAN when there is one; otherwise a
   * GENERATED_TRANSFER_ACCOUNT for that IBAN when the partner name is the
   * user's full name, and None for any other partner.
   */
  function TransferAccount(accs: seq<BankAccount>, user: User, row: Row, lib: BaseImporter.Library): (r: Result<(seq<BankAccount>, Option<nat>), Failure>)
    requires IsValidRow(lib, row)
    ensures TransactionType(row, Amount(lib, row)) != TRSF ==> r == Ok((accs, None))
    ensures TransactionType(row, Amount(lib, row)) == TRSF && BaseImporter.FirstAccount(accs, user.id, row[PARTNER_IBAN]).Some? ==>
      r == Ok((accs, BaseImporter.FirstAccount(accs, user.id, row[PARTNER_IBAN])))
    ensures TransactionType(row, Amount(lib, row)) == TRSF && BaseImporter.FirstAccount(accs, user.id, row[PARTNER_IBAN]).None? ==>
      if row[PARTNER_NAME] != FullName(user) then r == Ok((accs, None))
      else if IbanTaken(accs, row[PARTNER_IBAN], None) then r == Err(IntegrityError)
      else r == Ok((accs + [BankAccount(user.id, GENERATED_TRANSFER_ACCOUNT, row[PARTNER_IBAN], false, "")], Some(|accs|)))
    ensures r.Ok? ==> accs <= r.value.0
    ensures r.Ok? && r.value.1.Some? ==>
      r.value.1.value < |r.value.0| && BaseImporter.Holds(r.value.0[r.value.1.value], user.id, row[PARTNER_IBAN])
    ensures r.Ok? && UniqueIbans(accs) ==> UniqueIbans(r.value.0)
    ensures r.Ok? && AtMostOneMain(accs) ==> AtMostOneMain(r.value.0)
  {
    if TransactionType(row, Amount(lib, row)) != TRSF then Ok((accs, None))
    else
      var iban := row[PARTNER_IBAN];
      match BaseImporter.FirstAccount(accs, user.id, iban)
      case Some(k) => Ok((accs, Some(k)))
      case None =>
        if row[PARTNER_NAME] != FullName(user) then Ok((accs, None))
        else
          match Create(accs, user.id, Some(iban), GENERATED_TRANSFER_ACCOUNT)
          case Ok((accs', k)) => Ok((accs', Some(k)))
          case Err(e) => Err(e)
  }

  /** A transfer account the lookup returns is the first of the user's accounts with the partner IBAN in the resulting table. */
  lemma TransferAccountIsFirst(accs: seq<BankAccount>, user: User, row: Row, lib: BaseImporter.Library)
    requires IsValidRow(lib, row)
    requires TransferAccount(accs, user, row, lib).Ok? && TransferAccount(accs, user, row, lib).value.1.Some?
    ensures var (accs', k) := TransferAccount(accs, user, row, lib).value;
      BaseImporter.FirstAccount(accs', user.id, row[PARTNER_IBAN]) == k
  {
    if BaseImporter.FirstAccount(accs, user.id, row[PARTNER_IBAN]).None? {
      BaseImporter.FirstAccountAppended(accs, BankAccount(user.id, GENERATED_TRANSFER_ACCOUNT, row[PARTNER_IBAN], false, ""),
                                        user.id, row[PARTNER_IBAN]);
    }
  }

  /** The imperative `get_transfer_account`; it parses the amount again, as the source does. */
  method GetTransferAccount(db: Database, imp: BaseImporter.Importer, row: Row, lib: BaseImporter.Library) returns (r: Result<Option<nat>, Failure>)
    requires IsValidRow(lib, row)
    modifies db
    ensures match TransferAccount(old(db.accounts), imp.user, row, lib)
      case Ok(v) => db.accounts == v.0 && r == Ok(v.1)
      case Err(e) => db.accounts == old(db.accounts) && r == Err(e)
    ensures db.categories == old(db.categories) && db.transactions == old(db.transactions)
  {
    var txnType := TransactionType(row, lib.parseFloat(row[AMOUNT]).value);
    if txnType != TRSF {
      return Ok(None);
    }
    var partnerIban := row[PARTNER_IBAN];
    var partnerName := row[PARTNER_NAME];
    var account := BaseImporter.FirstAccount(db.accounts, imp.user.id, partnerIban);
    if account.None? && partnerName == FullName(imp.user) {
      var created := db.CreateAccount(imp.user.id, Some(partnerIban), GENERATED_TRANSFER_ACCOUNT);
      if created.Err? {
        return Err(created.error);
      }
      account := Some(created.value);
    }
    r := Ok(account);
  }

  /**
   * What a transaction added by an import satisfies in the store that holds it:
   * a non-negative amount, booked on the user's account with the importer's
   * IBAN, linked to one of the user's accounts when it names a transfer
   * account, and filed under the user's N26 fallback category.
   */
  ghost predicate ImportedBy(s: Db, t: Transaction, imp: BaseImporter.Importer) {
    && t.amount >= 0.0
    && t.account < |s.accounts| && s.accounts[t.account].user == imp.user.id && imp.iban == Some(s.accounts[t.account].iban)
    && (t.transfer.Some? ==> t.transfer.value < |s.accounts| && s.accounts[t.transfer.value].user == imp.user.id)
    && t.category.Some? && t.category.value < |s.categories|
    && BaseImporter.CategoryMatches(s.categories[t.category.value], BaseImporter.FALLBACK_CATEGORY, BANK_NAME, Some(imp.user.id))
  }

  /** Records are only ever appended, so what holds of a transaction holds in every later store. */
  lemma ImportedByKept(s: Db, s': Db, imp: BaseImporter.Importer)
    requires s.accounts <= s'.accounts && s.categories <= s'.categories
    ensures forall t :: ImportedBy(s, t, imp) ==> ImportedBy(s', t, imp)
  {
    assert forall i :: 0 <= i < |s.accounts| ==> s'.accounts[i] == s.accounts[i];
    assert forall i :: 0 <= i < |s.categories| ==> s'.categories[i] == s.categories[i];
  }

  /** Everything a store says about the rows imported so far, and the constraints it keeps. */
  ghost predicate Grows(db: Db, o: Outcome<Db>, imp: BaseImporter.Importer) {
    && db.accounts <= o.state.accounts && db.categories <= o.state.categories && db.transactions <= o.state.transactions
    && (forall i :: |db.transactions| <= i < |o.state.transactions| ==> ImportedBy(o.state, o.state.transactions[i], imp))
    && (UniqueIbans(db.accounts) ==> UniqueIbans(o.state.accounts))
    && (AtMostOneMain(db.accounts) ==> AtMostOneMain(o.state.accounts))
  }

  /** One pass of the `import_transactions` loop body. */
  function ImportRow(db: Db, imp: BaseImporter.Importer, lib: BaseImporter.Library, row: Row): (o: Outcome<Db>)
    ensures Grows(db, o, imp)
    ensures |o.state.transactions| <= |db.transactions| + 1
    ensures !IsValidRow(lib, row) ==> o == Outcome(db, None)
  {
    if !IsValidRow(lib, row) then Outcome(db, None)
    else
      var amount := Amount(lib, row);
      var description := Description(row);
      var txnType := TransactionType(row, amount);
      match lib.parseDate(row[BOOKING_DATE])
      case None => Outcome(db, Some(InvalidDate(row[BOOKING_DATE])))
      case Some(date) =>
        match BaseImporter.MainAccount(db.accounts, imp.user.id, imp.iban, BANK_NAME)
        case Err(e) => Outcome(db, Some(e))
        case Ok((accounts, account)) =>
          match TransferAccount(accounts, imp.user, row, lib)
          case Err(e) => Outcome(db.(accounts := accounts), Some(e))
          case Ok((accounts', transfer)) =>
            var fallback := BaseImporter.FALLBACK_CATEGORY;
            match BaseImporter.ResolveCategory(db.categories, fallback, fallback, BANK_NAME, imp.user.id, Some(imp.user.id))
            case Err(e) => Outcome(db.(accounts := accounts'), Some(e))
            case Ok((categories, category)) =>
              var t := Transaction(account, transfer, Some(category), date, Abs(amount), txnType, description);
              assert accounts[account] == accounts'[account];
              Store(db, imp, Db(accounts', categories, db.transactions), t)
  }

  /** The `get_or_create` of the transaction, into a store whose accounts and categories the row's lookups produced. */
  function Store(db: Db, imp: BaseImporter.Importer, s: Db, t: Transaction): (o: Outcome<Db>)
    requires db.accounts <= s.accounts && db.categories <= s.categories && s.transactions == db.transactions
    requires ImportedBy(s, t, imp)
    requires UniqueIbans(db.accounts) ==> UniqueIbans(s.accounts)
    requires AtMostOneMain(db.accounts) ==> AtMostOneMain(s.accounts)
    ensures Grows(db, o, imp)
    ensures |o.state.transactions| <= |db.transactions| + 1
  {
    var o := BaseImporter.GetOrCreate(db.transactions, t);
    Outcome(s.(transactions := o.state), o.failure)
  }

  /** The loop over the data rows, stopping at the first exception. */
  function RunRows(db: Db, imp: BaseImporter.Importer, lib: BaseImporter.Library, rows: seq<Row>): (o: Outcome<Db>)
    ensures Grows(db, o, imp)
    decreases |rows|
  {
    if rows == [] then Outcome(db, None)
    else
      var o := ImportRow(db, imp, lib, rows[0]);
      if o.failure.Some? then o
      else
        var o' := RunRows(o.state, imp, lib, rows[1..]);
        ImportedByKept(o.state, o'.state, imp);
        o'
  }

  /** `import_transactions`: seed the catalogue, drop the header row, import the data rows. */
  function Import(db: Db, imp: BaseImporter.Importer, lib: BaseImporter.Library): (o: Outcome<Db>)
    ensures Grows(db, o, imp)
  {
    var seeded := BaseImporter.SeedCategories(db.categories, CATEGORIES, BANK_NAME, imp.user.id);
    var db' := db.(categories := seeded.state);
    if seeded.failure.Some? then Outcome(db', seeded.failure)
    else
      match BaseImporter.ReadCsvContent(imp.file)
      case Err(e) => Outcome(db', Some(e))
      case Ok(rows) => RunRows(db', imp, lib, rows)
  }

  /** The body of the `import_transactions` loop for one row. */
  method ImportRowInto(db: Database, imp: BaseImporter.Importer, lib: BaseImporter.Library, row: Row) returns (failure: Option<Failure>)
    modifies db
    ensures var o := ImportRow(old(db.State()), imp, lib, row); db.State() == o.state && failure == o.failure
  {
    if !IsValidRow(lib, row) {
      return None;
    }
    var amount := lib.parseFloat(row[AMOUNT]).value;
    var description := Description(row);
    var txnType := TransactionType(row, amount);
    var date := lib.parseDate(row[BOOKING_DATE]);
    if date.None? {
      return Some(InvalidDate(row[BOOKING_DATE]));
    }
    var account := BaseImporter.GetOrCreateMainAccount(db, imp, BANK_NAME);
    if account.Err? {
      return Some(account.error);
    }
    var transfer := GetTransferAccount(db, imp, row, lib);
    if transfer.Err? {
      return Some(transfer.error);
    }
    var fallback := BaseImporter.FALLBACK_CATEGORY;
    var category := BaseImporter.GetCategory(db, fallback, fallback, BANK_NAME, imp.user.id);
    if category.Err? {
      return Some(category.error);
    }
    var t := Transaction(account.value, transfer.value, Some(category.value), date.value, Abs(amount), txnType, description);
    failure := BaseImporter.GetOrCreateTransaction(db, t);
  }

  /** The `for row in rows` loop of `import_transactions`, stopping at the first exception. */
  method ImportRows(db: Database, imp: BaseImporter.Importer, lib: BaseImporter.Library, rows: seq<Row>) returns (failure: Option<Failure>)
    modifies db
    ensures var o := RunRows(old(db.State()), imp, lib, rows); db.State() == o.state && failure == o.failure
  {
    ghost var start := db.State();
    var i := 0;
    while i < |rows|
      invariant 0 <= i <= |rows|
      invariant RunRows(start, imp, lib, rows) == RunRows(db.State(), imp, lib, rows[i..])
    {
      assert rows[i..][0] == rows[i] && rows[i..][1..] == rows[i + 1..];
      failure := ImportRowInto(db, imp, lib, rows[i]);
      if failure.Some? {
        return;
      }
      i := i + 1;
    }
    failure := None;
  }

  /**
   * `import_transactions`: on success the result is the catalogue, however
   * many rows were imported or skipped; an exception leaves in the store
   * whatever was written before it.
   */
  method ImportTransactions(db: Database, imp: BaseImporter.Importer, lib: BaseImporter.Library) returns (r: Result<seq<CategorySpec>, Failure>)
    modifies db
    ensures var o := Import(old(db.State()), imp, lib);
      db.State() == o.state && r == if o.failure.None? then Ok(CATEGORIES) else Err(o.failure.value)
  {
    var failure := BaseImporter.CreateBankCategories(db, CATEGORIES, BANK_NAME, imp.user.id);
    if failure.Some? {
      return Err(failure.value);
    }
    var read := BaseImporter.ReadCsvContent(imp.file);
    if read.Err? {
      return Err(read.error);
    }
    failure := ImportRows(db, imp, lib, read.value);
    if failure.Some? {
      return Err(failure.value);
    }
    r := Ok(CATEGORIES);
  }
}
