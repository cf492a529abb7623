/**
 * Properties of a whole N26 import: rows whose amount does not parse change
 * nothing, a transfer account once resolved is reused, re-importing a file
 * adds nothing (under the condition spelled out in LinksStable, which the
 * code needs), and the category lookup's scope.
 */
module ImportProperties {
  import opened Wrappers
  import opened Models
  import BaseImporter
  import opened N26Importer

  /** The rows `is_valid_row` accepts, in file order. */
  function ValidRows(lib: BaseImporter.Library, rows: seq<Row>): (r: seq<Row>)
    ensures |r| <= |rows|
    ensures forall row :: row in r <==> row in rows && IsValidRow(lib, row)
  {
    if rows == [] then []
    else if IsValidRow(lib, rows[0]) then [rows[0]] + ValidRows(lib, rows[1..])
    else ValidRows(lib, rows[1..])
  }

  /** Rows whose amount does not parse are skipped: the import behaves as if they were not in the file. */
  lemma {:induction false} InvalidRowsSkipped(db: Db, imp: BaseImporter.Importer, lib: BaseImporter.Library, rows: seq<Row>)
    ensures RunRows(db, imp, lib, rows) == RunRows(db, imp, lib, ValidRows(lib, rows))
    decreases |rows|
  {
    if rows != [] {
      if !IsValidRow(lib, rows[0]) {
        InvalidRowsSkipped(db, imp, lib, rows[1..]);
      } else {
        var v := ValidRows(lib, rows);
        assert v[0] == rows[0] && v[1..] == ValidRows(lib, rows[1..]);
        var o := ImportRow(db, imp, lib, rows[0]);
        if o.failure.None? {
          InvalidRowsSkipped(o.state, imp, lib, rows[1..]);
        }
      }
    }
  }

  /** A row the pipeline books as a transfer. */
  predicate IsTransferRow(lib: BaseImporter.Library, row: Row) {
    IsValidRow(lib, row) && TransactionType(row, Amount(lib, row)) == TRSF
  }

  /**
   * The account a transfer row resolves to, found or generated, is the one
   * every later transfer row to the same IBAN resolves to, whatever was
   * appended in between; no second account is created for it.
   */
  lemma TransferAccountReused(accs: seq<BankAccount>, more: seq<BankAccount>, user: User, row: Row, row': Row, lib: BaseImporter.Library)
    requires IsValidRow(lib, row) && IsTransferRow(lib, row')
    requires TransferAccount(accs, user, row, lib).Ok? && TransferAccount(accs, user, row, lib).value.1.Some?
    requires TransferAccount(accs, user, row, lib).value.0 <= more
    requires row'[PARTNER_IBAN] == row[PARTNER_IBAN]
    ensures TransferAccount(more, user, row', lib) == Ok((more, TransferAccount(accs, user, row, lib).value.1))
  {
    var (accs', k) := TransferAccount(accs, user, row, lib).value;
    TransferAccountIsFirst(accs, user, row, lib);
    BaseImporter.FirstAccountStable(accs', more, user.id, row[PARTNER_IBAN]);
  }

  /**
   * A second transfer lookup for the same row, on the accounts the first one
   * left with more appended, creates nothing and gives the same answer, as
   * long as the appended accounts give the user none for a partner IBAN the
   * first lookup did not find.
   */
  lemma TransferSecondCall(accs: seq<BankAccount>, more: seq<BankAccount>, user: User, row: Row, lib: BaseImporter.Library)
    requires IsValidRow(lib, row)
    requires TransferAccount(accs, user, row, lib).Ok? && TransferAccount(accs, user, row, lib).value.0 <= more
    requires IsTransferRow(lib, row) && BaseImporter.FirstAccount(TransferAccount(accs, user, row, lib).value.0, user.id, row[PARTNER_IBAN]).None? ==>
      BaseImporter.FirstAccount(more, user.id, row[PARTNER_IBAN]).None?
    ensures TransferAccount(more, user, row, lib) == Ok((more, TransferAccount(accs, user, row, lib).value.1))
  {
    if TransferAccount(accs, user, row, lib).value.1.Some? {
      TransferAccountReused(accs, more, user, row, row, lib);
    }
  }

  /** The store holds a category the pipeline's fallback lookup matches for this user. */
  predicate FallbackPresent(cats: seq<Category>, user: UserId) {
    exists i :: 0 <= i < |cats| && BaseImporter.CategoryMatches(cats[i], BaseImporter.FALLBACK_CATEGORY, BANK_NAME, Some(user))
  }

  /** The catalogue entry at `ALTRO` is the fallback category. */
  lemma AltroEntry()
    ensures ALTRO < |CATEGORIES|
    ensures CATEGORIES[ALTRO] == BaseImporter.CategorySpec(BaseImporter.FALLBACK_CATEGORY, BaseImporter.FALLBACK_ICON, false)
  {
  }

  /** Seeding the N26 catalogue stores the user's fallback category. */
  lemma SeedingProvidesFallback(cats: seq<Category>, user: UserId)
    requires BaseImporter.SeedCategories(cats, CATEGORIES, BANK_NAME, user).failure.None?
    ensures FallbackPresent(BaseImporter.SeedCategories(cats, CATEGORIES, BANK_NAME, user).state, user)
  {
    var seeded := BaseImporter.SeedCategories(cats, CATEGORIES, BANK_NAME, user).state;
    AltroEntry();
    var altro := BaseImporter.CategoryRecord(CATEGORIES[ALTRO], BANK_NAME, user);
    assert multiset(seeded)[altro] == 1 by {
      BaseImporter.SeedingStoresOnce(cats, CATEGORIES, BANK_NAME, user);
    }
    assert altro in seeded;
    var i :| 0 <= i < |seeded| && seeded[i] == altro;
    assert BaseImporter.CategoryMatches(seeded[i], BaseImporter.FALLBACK_CATEGORY, BANK_NAME, Some(user));
  }

  /** Once the fallback category exists, rows never add categories. */
  lemma RowKeepsCategories(db: Db, imp: BaseImporter.Importer, lib: BaseImporter.Library, row: Row)
    requires FallbackPresent(db.categories, imp.user.id)
    ensures ImportRow(db, imp, lib, row).state.categories == db.categories
  {
    var fallback := BaseImporter.FALLBACK_CATEGORY;
    var r := BaseImporter.ResolveCategory(db.categories, fallback, fallback, BANK_NAME, imp.user.id, Some(imp.user.id));
    assert r.Ok? ==> r.value.0 == db.categories;
  }

  lemma {:induction false} RowsKeepCategories(db: Db, imp: BaseImporter.Importer, lib: BaseImporter.Library, rows: seq<Row>)
    requires FallbackPresent(db.categories, imp.user.id)
    ensures RunRows(db, imp, lib, rows).state.categories == db.categories
    decreases |rows|
  {
    if rows != [] {
      RowKeepsCategories(db, imp, lib, rows[0]);
      var o := ImportRow(db, imp, lib, rows[0]);
      if o.failure.None? {
        RowsKeepCategories(o.state, imp, lib, rows[1..]);
      }
    }
  }

  /** A transaction already stored is never stored a second time. */
  lemma RowKeepsCount(db: Db, imp: BaseImporter.Importer, lib: BaseImporter.Library, row: Row, t: Transaction)
    requires multiset(db.transactions)[t] >= 1
    ensures multiset(ImportRow(db, imp, lib, row).state.transactions)[t] == multiset(db.transactions)[t]
  {
  }

  lemma {:induction false} RowsKeepCount(db: Db, imp: BaseImporter.Importer, lib: BaseImporter.Library, rows: seq<Row>, t: Transaction)
    requires multiset(db.transactions)[t] >= 1
    ensures multiset(RunRows(db, imp, lib, rows).state.transactions)[t] == multiset(db.transactions)[t]
    decreases |rows|
  {
    if rows != [] {
      RowKeepsCount(db, imp, lib, rows[0], t);
      var o := ImportRow(db, imp, lib, rows[0]);
      if o.failure.None? {
        RowsKeepCount(o.state, imp, lib, rows[1..], t);
      }
    }
  }

  /** The main-account lookup gives the user an account with IBAN `x` only when `x` is the importer's IBAN. */
  lemma MainAddsNoHolder(accs: seq<BankAccount>, user: UserId, iban: Option<string>, x: string)
    requires iban != Some(x)
    requires BaseImporter.FirstAccount(accs, user, x).None?
    requires BaseImporter.MainAccount(accs, user, iban, BANK_NAME).Ok?
    ensures BaseImporter.FirstAccount(BaseImporter.MainAccount(accs, user, iban, BANK_NAME).value.0, user, x).None?
  {
    var accounts := BaseImporter.MainAccount(accs, user, iban, BANK_NAME).value.0;
    assert forall j :: 0 <= j < |accs| ==> accounts[j] == accs[j];
  }

  /** The transfer lookup gives the user an account with IBAN `x` only for a transfer to `x` whose partner is the user. */
  lemma TransferAddsNoHolder(accs: seq<BankAccount>, user: User, row: Row, lib: BaseImporter.Library, x: string)
    requires IsValidRow(lib, row)
    requires BaseImporter.FirstAccount(accs, user.id, x).None?
    requires IsTransferRow(lib, row) && row[PARTNER_IBAN] == x ==> row[PARTNER_NAME] != FullName(user)
    requires TransferAccount(accs, user, row, lib).Ok?
    ensures BaseImporter.FirstAccount(TransferAccount(accs, user, row, lib).value.0, user.id, x).None?
  {
    var accounts := TransferAccount(accs, user, row, lib).value.0;
    assert forall j :: 0 <= j < |accs| ==> accounts[j] == accs[j];
  }

  /**
   * A row gives the user an account with IBAN `x` only as its main account or
   * as a generated transfer account, the latter only for a transfer to `x`
   * whose partner is the user.
   */
  lemma RowAddsNoHolder(db: Db, imp: BaseImporter.Importer, lib: BaseImporter.Library, row: Row, x: string)
    requires imp.iban != Some(x)
    requires BaseImporter.FirstAccount(db.accounts, imp.user.id, x).None?
    requires IsTransferRow(lib, row) && row[PARTNER_IBAN] == x ==> row[PARTNER_NAME] != FullName(imp.user)
    ensures BaseImporter.FirstAccount(ImportRow(db, imp, lib, row).state.accounts, imp.user.id, x).None?
  {
    if IsValidRow(lib, row) && lib.parseDate(row[BOOKING_DATE]).Some? {
      var main := BaseImporter.MainAccount(db.accounts, imp.user.id, imp.iban, BANK_NAME);
      if main.Ok? {
        MainAddsNoHolder(db.accounts, imp.user.id, imp.iban, x);
        var transfer := TransferAccount(main.value.0, imp.user, row, lib);
        if transfer.Ok? {
          TransferAddsNoHolder(main.value.0, imp.user, row, lib, x);
        }
      }
    }
  }

  lemma {:induction false} RowsAddNoHolder(db: Db, imp: BaseImporter.Importer, lib: BaseImporter.Library, rows: seq<Row>, x: string)
    requires imp.iban != Some(x)
    requires BaseImporter.FirstAccount(db.accounts, imp.user.id, x).None?
    requires forall k :: 0 <= k < |rows| && IsTransferRow(lib, rows[k]) && rows[k][PARTNER_IBAN] == x ==>
      rows[k][PARTNER_NAME] != FullName(imp.user)
    ensures BaseImporter.FirstAccount(RunRows(db, imp, lib, rows).state.accounts, imp.user.id, x).None?
    decreases |rows|
  {
    if rows != [] {
      RowAddsNoHolder(db, imp, lib, rows[0], x);
      var o := ImportRow(db, imp, lib, rows[0]);
      if o.failure.None? {
        RowsAddNoHolder(o.state, imp, lib, rows[1..], x);
      }
    }
  }

  /**
   * What a successfully imported row leaves behind: the user's main account
   * and, for a transfer row left without a transfer account, a partner who is
   * not the user and an IBAN that is not the main account's.
   */
  lemma RowOutcome(db: Db, imp: BaseImporter.Importer, lib: BaseImporter.Library, row: Row)
    requires IsValidRow(lib, row) && ImportRow(db, imp, lib, row).failure.None?
    ensures var accs := ImportRow(db, imp, lib, row).state.accounts;
      imp.iban.Some? && BaseImporter.FirstAccount(accs, imp.user.id, imp.iban.value).Some? &&
      (IsTransferRow(lib, row) && BaseImporter.FirstAccount(accs, imp.user.id, row[PARTNER_IBAN]).None? ==>
        row[PARTNER_NAME] != FullName(imp.user) && row[PARTNER_IBAN] != imp.iban.value)
  {
    RowStored(db, imp, lib, row);
    LookupsOutcome(db.accounts, imp, row, lib);
  }

  /** `RowOutcome` on the account table alone: the main-account lookup followed by the transfer lookup. */
  lemma LookupsOutcome(accs: seq<BankAccount>, imp: BaseImporter.Importer, row: Row, lib: BaseImporter.Library)
    requires IsValidRow(lib, row)
    requires BaseImporter.MainAccount(accs, imp.user.id, imp.iban, BANK_NAME).Ok?
    requires TransferAccount(BaseImporter.MainAccount(accs, imp.user.id, imp.iban, BANK_NAME).value.0, imp.user, row, lib).Ok?
    ensures var accs' := TransferAccount(BaseImporter.MainAccount(accs, imp.user.id, imp.iban, BANK_NAME).value.0, imp.user, row, lib).value.0;
      imp.iban.Some? && BaseImporter.FirstAccount(accs', imp.user.id, imp.iban.value).Some? &&
      (IsTransferRow(lib, row) && BaseImporter.FirstAccount(accs', imp.user.id, row[PARTNER_IBAN]).None? ==>
        row[PARTNER_NAME] != FullName(imp.user) && row[PARTNER_IBAN] != imp.iban.value)
  {
    var main := BaseImporter.MainAccount(accs, imp.user.id, imp.iban, BANK_NAME).value;
    var transfer := TransferAccount(main.0, imp.user, row, lib).value;
    BaseImporter.MainAccountIsFirst(accs, imp.user.id, imp.iban, BANK_NAME);
    BaseImporter.FirstAccountStable(main.0, transfer.0, imp.user.id, imp.iban.value);
    var partner := row[PARTNER_IBAN];
    if BaseImporter.FirstAccount(main.0, imp.user.id, partner).Some? {
      BaseImporter.FirstAccountStable(main.0, transfer.0, imp.user.id, partner);
    }
    if transfer.1.Some? {
      TransferAccountIsFirst(main.0, imp.user, row, lib);
    }
  }

  /** The records a successfully imported row leaves: the accounts and category its lookups produced, and its transaction once. */
  lemma RowStored(db: Db, imp: BaseImporter.Importer, lib: BaseImporter.Library, row: Row)
    requires IsValidRow(lib, row) && ImportRow(db, imp, lib, row).failure.None?
    ensures lib.parseDate(row[BOOKING_DATE]).Some?
    ensures BaseImporter.MainAccount(db.accounts, imp.user.id, imp.iban, BANK_NAME).Ok?
    ensures var (accounts, account) := BaseImporter.MainAccount(db.accounts, imp.user.id, imp.iban, BANK_NAME).value;
      && TransferAccount(accounts, imp.user, row, lib).Ok?
      && var (accounts', transfer) := TransferAccount(accounts, imp.user, row, lib).value;
      && var fallback := BaseImporter.FALLBACK_CATEGORY;
      && BaseImporter.ResolveCategory(db.categories, fallback, fallback, BANK_NAME, imp.user.id, Some(imp.user.id)).Ok?
      && var (categories, category) := BaseImporter.ResolveCategory(db.categories, fallback, fallback, BANK_NAME, imp.user.id, Some(imp.user.id)).value;
      && var d := ImportRow(db, imp, lib, row).state;
      && d.accounts == accounts' && d.categories == categories
      && multiset(d.transactions)[Transaction(account, transfer, Some(category), lib.parseDate(row[BOOKING_DATE]).value,
           Abs(Amount(lib, row)), TransactionType(row, Amount(lib, row)), Description(row))] == 1
  {
  }

  /** A row whose lookups all find records already in `s`, and whose transaction `s` holds once, leaves `s` as it is. */
  lemma RowFindsEverything(s: Db, imp: BaseImporter.Importer, lib: BaseImporter.Library, row: Row, account: nat, transfer: Option<nat>, category: nat)
    requires IsValidRow(lib, row) && lib.parseDate(row[BOOKING_DATE]).Some?
    requires BaseImporter.MainAccount(s.accounts, imp.user.id, imp.iban, BANK_NAME) == Ok((s.accounts, account))
    requires TransferAccount(s.accounts, imp.user, row, lib) == Ok((s.accounts, transfer))
    requires BaseImporter.ResolveCategory(s.categories, BaseImporter.FALLBACK_CATEGORY, BaseImporter.FALLBACK_CATEGORY,
                                          BANK_NAME, imp.user.id, Some(imp.user.id)) == Ok((s.categories, category))
    requires multiset(s.transactions)[Transaction(account, transfer, Some(category), lib.parseDate(row[BOOKING_DATE]).value,
      Abs(Amount(lib, row)), TransactionType(row, Amount(lib, row)), Description(row))] == 1
    ensures ImportRow(s, imp, lib, row) == Outcome(s, None)
  {
  }

  /**
   * A row imported into `db` is absorbed by any later store `s` that kept its
   * records, added no categories, stored no transaction twice and gave the
   * user no account for an IBAN the row's transfer lookup did not find.
   */
  lemma RowAbsorbed(db: Db, s: Db, imp: BaseImporter.Importer, lib: BaseImporter.Library, row: Row)
    requires FallbackPresent(db.categories, imp.user.id)
    requires ImportRow(db, imp, lib, row).failure.None?
    requires ImportRow(db, imp, lib, row).state.accounts <= s.accounts
    requires s.categories == db.categories
    requires forall t :: multiset(ImportRow(db, imp, lib, row).state.transactions)[t] >= 1 ==>
      multiset(s.transactions)[t] == multiset(ImportRow(db, imp, lib, row).state.transactions)[t]
    requires (IsTransferRow(lib, row) &&
              BaseImporter.FirstAccount(ImportRow(db, imp, lib, row).state.accounts, imp.user.id, row[PARTNER_IBAN]).None?) ==>
      BaseImporter.FirstAccount(s.accounts, imp.user.id, row[PARTNER_IBAN]).None?
    ensures ImportRow(s, imp, lib, row) == Outcome(s, None)
  {
    if IsValidRow(lib, row) {
      RowStored(db, imp, lib, row);
      RowKeepsCategories(db, imp, lib, row);
      var main := BaseImporter.MainAccount(db.accounts, imp.user.id, imp.iban, BANK_NAME).value;
      BaseImporter.MainAccountSecondCall(db.accounts, s.accounts, imp.user.id, imp.iban, BANK_NAME);
      TransferSecondCall(main.0, s.accounts, imp.user, row, lib);
      var fallback := BaseImporter.FALLBACK_CATEGORY;
      RowFindsEverything(s, imp, lib, row, main.1, TransferAccount(main.0, imp.user, row, lib).value.1,
        BaseImporter.ResolveCategory(db.categories, fallback, fallback, BANK_NAME, imp.user.id, Some(imp.user.id)).value.1);
    }
  }

  /**
   * The condition re-import idempotence needs: a transfer row whose partner is
   * the user creates the account for that IBAN, so an earlier transfer row to
   * the same IBAN must have the user as partner too, or a second import links
   * it to the account created after it was first imported.
   */
  ghost predicate LinksStable(rows: seq<Row>, user: User, lib: BaseImporter.Library) {
    forall i, j ::
      (0 <= i < j < |rows| && IsTransferRow(lib, rows[i]) && IsTransferRow(lib, rows[j]) &&
       rows[i][PARTNER_IBAN] == rows[j][PARTNER_IBAN] && rows[j][PARTNER_NAME] == FullName(user)) ==>
      rows[i][PARTNER_NAME] == FullName(user)
  }

  /** The condition holds of every suffix, and constrains the rows after the first. */
  lemma LinksStableSplit(rows: seq<Row>, user: User, lib: BaseImporter.Library)
    requires rows != [] && LinksStable(rows, user, lib)
    ensures LinksStable(rows[1..], user, lib)
    ensures IsTransferRow(lib, rows[0]) && rows[0][PARTNER_NAME] != FullName(user) ==>
      forall k :: 0 <= k < |rows| - 1 && IsTransferRow(lib, rows[1..][k]) && rows[1..][k][PARTNER_IBAN] == rows[0][PARTNER_IBAN] ==>
        rows[1..][k][PARTNER_NAME] != FullName(user)
  {
    var rest := rows[1..];
    assert forall k :: 0 <= k < |rest| ==> rest[k] == rows[k + 1];
  }

  /** The first row of a run is absorbed by the store the whole run produces. */
  lemma FirstRowAbsorbed(db: Db, imp: BaseImporter.Importer, lib: BaseImporter.Library, rows: seq<Row>)
    requires rows != [] && FallbackPresent(db.categories, imp.user.id)
    requires LinksStable(rows, imp.user, lib)
    requires ImportRow(db, imp, lib, rows[0]).failure.None?
    ensures var s := RunRows(ImportRow(db, imp, lib, rows[0]).state, imp, lib, rows[1..]).state;
      ImportRow(s, imp, lib, rows[0]) == Outcome(s, None)
  {
    var row, rest := rows[0], rows[1..];
    var d1 := ImportRow(db, imp, lib, row).state;
    var s := RunRows(d1, imp, lib, rest).state;
    RowKeepsCategories(db, imp, lib, row);
    RowsKeepCategories(d1, imp, lib, rest);
    forall t | multiset(d1.transactions)[t] >= 1
      ensures multiset(s.transactions)[t] == multiset(d1.transactions)[t]
    {
      RowsKeepCount(d1, imp, lib, rest, t);
    }
    NoLaterHolder(db, imp, lib, rows);
    RowAbsorbed(db, s, imp, lib, row);
  }

  /** A transfer row left without a transfer account stays without one: no later row creates it. */
  lemma NoLaterHolder(db: Db, imp: BaseImporter.Importer, lib: BaseImporter.Library, rows: seq<Row>)
    requires rows != [] && LinksStable(rows, imp.user, lib)
    requires ImportRow(db, imp, lib, rows[0]).failure.None?
    ensures var d1 := ImportRow(db, imp, lib, rows[0]).state;
      var s := RunRows(d1, imp, lib, rows[1..]).state;
      (IsTransferRow(lib, rows[0]) && BaseImporter.FirstAccount(d1.accounts, imp.user.id, rows[0][PARTNER_IBAN]).None?) ==>
        BaseImporter.FirstAccount(s.accounts, imp.user.id, rows[0][PARTNER_IBAN]).None?
  {
    var row := rows[0];
    var d1 := ImportRow(db, imp, lib, row).state;
    if IsTransferRow(lib, row) && BaseImporter.FirstAccount(d1.accounts, imp.user.id, row[PARTNER_IBAN]).None? {
      RowOutcome(db, imp, lib, row);
      LinksStableSplit(rows, imp.user, lib);
      RowsAddNoHolder(d1, imp, lib, rows[1..], row[PARTNER_IBAN]);
    }
  }

  /** Running the same rows again over the store the first run produced changes nothing. */
  lemma {:induction false} RunAgainIsNoop(db: Db, imp: BaseImporter.Importer, lib: BaseImporter.Library, rows: seq<Row>)
    requires FallbackPresent(db.categories, imp.user.id)
    requires LinksStable(rows, imp.user, lib)
    requires RunRows(db, imp, lib, rows).failure.None?
    ensures var s := RunRows(db, imp, lib, rows).state; RunRows(s, imp, lib, rows) == Outcome(s, None)
    decreases |rows|
  {
    if rows != [] {
      var d1 := ImportRow(db, imp, lib, rows[0]).state;
      var s := RunRows(d1, imp, lib, rows[1..]).state;
      assert RunRows(db, imp, lib, rows) == RunRows(d1, imp, lib, rows[1..]);
      RowKeepsCategories(db, imp, lib, rows[0]);
      LinksStableSplit(rows, imp.user, lib);
      RunAgainIsNoop(d1, imp, lib, rows[1..]);
      FirstRowAbsorbed(db, imp, lib, rows);
      assert RunRows(s, imp, lib, rows) == RunRows(s, imp, lib, rows[1..]);
    }
  }

  /**
   * Importing a file a second time adds no account, no category and no
   * transaction and raises nothing, provided the first import succeeded and
   * the file's transfer rows satisfy LinksStable.
   */
  lemma ReimportIsNoop(db: Db, imp: BaseImporter.Importer, lib: BaseImporter.Library)
    requires Import(db, imp, lib).failure.None?
    requires imp.file != [] ==> LinksStable(imp.file[1..], imp.user, lib)
    ensures var s := Import(db, imp, lib).state; Import(s, imp, lib) == Outcome(s, None)
  {
    var user := imp.user.id;
    var seeded := BaseImporter.SeedCategories(db.categories, CATEGORIES, BANK_NAME, user);
    var db' := db.(categories := seeded.state);
    var rows := imp.file[1..];
    SeedingProvidesFallback(db.categories, user);
    RowsKeepCategories(db', imp, lib, rows);
    var s := RunRows(db', imp, lib, rows).state;
    BaseImporter.SeedingIdempotent(db.categories, CATEGORIES, BANK_NAME, user);
    RunAgainIsNoop(db', imp, lib, rows);
    assert s.(categories := s.categories) == s;
  }

  // A two-row file showing why ReimportIsNoop needs LinksStable.
  const DEMO_USER := User(1, "Ada", "Lovelace")
  const DEMO_IMPORTER := BaseImporter.Importer(DEMO_USER, [], Some("DE01"))
  const DEMO_LIBRARY := BaseImporter.Library(s => if s == "-5" then Some(-5.0) else None, s => Some(Date(2024, 1, 2)))
  const DEMO_THIRD_PARTY: Row := DemoRow("Bob")
  const DEMO_SELF: Row := DemoRow("Ada Lovelace")
  const DEMO_FALLBACK := Category("Altro", "category", OUT, BANK_NAME, 1)
  const DEMO_MAIN := BankAccount(1, BANK_NAME, "DE01", false, "")
  const DEMO_GENERATED := BankAccount(1, GENERATED_TRANSFER_ACCOUNT, "DE99", false, "")
  const DEMO_UNLINKED := Transaction(0, None, Some(0), Date(2024, 1, 2), 5.0, TRSF, "Bob")
  const DEMO_LINKED := Transaction(0, Some(1), Some(0), Date(2024, 1, 2), 5.0, TRSF, "Bob")
  const DEMO_SELF_TRANSFER := Transaction(0, Some(1), Some(0), Date(2024, 1, 2), 5.0, TRSF, "Ada Lovelace")

  /** A row that goes through hands the store it leaves to the rest of the run. */
  lemma RunRowsStep(db: Db, imp: BaseImporter.Importer, lib: BaseImporter.Library, rows: seq<Row>)
    requires rows != [] && ImportRow(db, imp, lib, rows[0]).failure.None?
    ensures RunRows(db, imp, lib, rows) == RunRows(ImportRow(db, imp, lib, rows[0]).state, imp, lib, rows[1..])
  {
  }

  /** A debit transfer of 5 to IBAN "DE99" with the given partner and no reference. */
  function DemoRow(partner: string): Row {
    ["2024-01-02", "", partner, "DE99", DEBIT_TRANSFER, "", "", "-5"]
  }

  /** What the hooks make of a demo row. */
  lemma DemoRowFields(partner: string)
    requires partner != ""
    ensures IsTransferRow(DEMO_LIBRARY, DemoRow(partner)) && Amount(DEMO_LIBRARY, DemoRow(partner)) == -5.0
    ensures DEMO_LIBRARY.parseDate(DemoRow(partner)[BOOKING_DATE]) == Some(Date(2024, 1, 2))
    ensures Description(DemoRow(partner)) == partner
    ensures DemoRow(partner)[PARTNER_IBAN] == "DE99" && DemoRow(partner)[PARTNER_NAME] == partner
  {
    assert Text.Strip("") == "";
  }

  lemma DemoThirdPartyFacts()
    ensures IsTransferRow(DEMO_LIBRARY, DEMO_THIRD_PARTY) && Amount(DEMO_LIBRARY, DEMO_THIRD_PARTY) == -5.0
    ensures DEMO_LIBRARY.parseDate(DEMO_THIRD_PARTY[BOOKING_DATE]) == Some(Date(2024, 1, 2))
    ensures Description(DEMO_THIRD_PARTY) == "Bob"
    ensures DEMO_THIRD_PARTY[PARTNER_IBAN] == "DE99" && DEMO_THIRD_PARTY[PARTNER_NAME] != FullName(DEMO_USER)
  {
    DemoRowFields("Bob");
    assert FullName(DEMO_USER)[0] == 'A';
  }

  lemma DemoSelfFacts()
    ensures IsTransferRow(DEMO_LIBRARY, DEMO_SELF) && Amount(DEMO_LIBRARY, DEMO_SELF) == -5.0
    ensures DEMO_LIBRARY.parseDate(DEMO_SELF[BOOKING_DATE]) == Some(Date(2024, 1, 2))
    ensures Description(DEMO_SELF) == "Ada Lovelace"
    ensures DEMO_SELF[PARTNER_IBAN] == "DE99" && DEMO_SELF[PARTNER_NAME] == FullName(DEMO_USER)
  {
    DemoRowFields("Ada Lovelace");
  }

  lemma DemoRowFacts()
    ensures IsTransferRow(DEMO_LIBRARY, DEMO_THIRD_PARTY) && IsTransferRow(DEMO_LIBRARY, DEMO_SELF)
    ensures Amount(DEMO_LIBRARY, DEMO_THIRD_PARTY) == -5.0 && Amount(DEMO_LIBRARY, DEMO_SELF) == -5.0
    ensures DEMO_LIBRARY.parseDate(DEMO_THIRD_PARTY[BOOKING_DATE]) == Some(Date(2024, 1, 2))
    ensures DEMO_LIBRARY.parseDate(DEMO_SELF[BOOKING_DATE]) == Some(Date(2024, 1, 2))
    ensures Description(DEMO_THIRD_PARTY) == "Bob" && Description(DEMO_SELF) == "Ada Lovelace"
    ensures DEMO_THIRD_PARTY[PARTNER_IBAN] == "DE99" && DEMO_SELF[PARTNER_IBAN] == "DE99"
    ensures DEMO_THIRD_PARTY[PARTNER_NAME] != FullName(DEMO_USER) && DEMO_SELF[PARTNER_NAME] == FullName(DEMO_USER)
  {
    DemoThirdPartyFacts();
    DemoSelfFacts();
  }

  lemma DemoFallbackFound()
    ensures BaseImporter.ResolveCategory([DEMO_FALLBACK], "Altro", "Altro", BANK_NAME, 1, Some(1)) == Ok(([DEMO_FALLBACK], 0))
  {
    assert BaseImporter.CategoryMatches(DEMO_FALLBACK, "Altro", BANK_NAME, Some(1));
    assert BaseImporter.CategoryLookup([DEMO_FALLBACK], "Altro", BANK_NAME, Some(1)) == [0];
  }

  lemma DemoMainCreated()
    ensures BaseImporter.MainAccount([], 1, Some("DE01"), BANK_NAME) == Ok(([DEMO_MAIN], 0))
  {
    assert !IbanTaken([], "DE01", None);
    assert [] + [DEMO_MAIN] == [DEMO_MAIN];
  }

  lemma DemoMainFound(accs: seq<BankAccount>)
    requires |accs| > 0 && accs[0] == DEMO_MAIN
    ensures BaseImporter.MainAccount(accs, 1, Some("DE01"), BANK_NAME) == Ok((accs, 0))
  {
    assert BaseImporter.Holds(accs[0], 1, "DE01");
  }

  lemma DemoMainLookups()
    ensures BaseImporter.MainAccount([], 1, Some("DE01"), BANK_NAME) == Ok(([DEMO_MAIN], 0))
    ensures BaseImporter.MainAccount([DEMO_MAIN], 1, Some("DE01"), BANK_NAME) == Ok(([DEMO_MAIN], 0))
    ensures BaseImporter.MainAccount([DEMO_MAIN, DEMO_GENERATED], 1, Some("DE01"), BANK_NAME) == Ok(([DEMO_MAIN, DEMO_GENERATED], 0))
  {
    DemoMainCreated();
    DemoMainFound([DEMO_MAIN]);
    DemoMainFound([DEMO_MAIN, DEMO_GENERATED]);
  }

  lemma DemoPartnerLookups()
    ensures BaseImporter.FirstAccount([DEMO_MAIN], 1, "DE99").None?
    ensures BaseImporter.FirstAccount([DEMO_MAIN, DEMO_GENERATED], 1, "DE99") == Some(1)
  {
    assert !BaseImporter.Holds(DEMO_MAIN, 1, "DE99");
    assert BaseImporter.Holds(DEMO_GENERATED, 1, "DE99");
  }

  lemma DemoCreateGenerated()
    ensures Create([DEMO_MAIN], 1, Some("DE99"), GENERATED_TRANSFER_ACCOUNT) == Ok(([DEMO_MAIN, DEMO_GENERATED], 1))
  {
    assert !IbanTaken([DEMO_MAIN], "DE99", None);
    assert [DEMO_MAIN] + [DEMO_GENERATED] == [DEMO_MAIN, DEMO_GENERATED];
  }

  lemma DemoAccountLookups()
    ensures BaseImporter.MainAccount([], 1, Some("DE01"), BANK_NAME) == Ok(([DEMO_MAIN], 0))
    ensures BaseImporter.MainAccount([DEMO_MAIN], 1, Some("DE01"), BANK_NAME) == Ok(([DEMO_MAIN], 0))
    ensures BaseImporter.MainAccount([DEMO_MAIN, DEMO_GENERATED], 1, Some("DE01"), BANK_NAME) == Ok(([DEMO_MAIN, DEMO_GENERATED], 0))
    ensures BaseImporter.FirstAccount([DEMO_MAIN], 1, "DE99").None?
    ensures BaseImporter.FirstAccount([DEMO_MAIN, DEMO_GENERATED], 1, "DE99") == Some(1)
    ensures Create([DEMO_MAIN], 1, Some("DE99"), GENERATED_TRANSFER_ACCOUNT) == Ok(([DEMO_MAIN, DEMO_GENERATED], 1))
  {
    DemoMainLookups();
    DemoPartnerLookups();
    DemoCreateGenerated();
  }

  lemma DemoTransfers()
    ensures TransferAccount([DEMO_MAIN], DEMO_USER, DEMO_THIRD_PARTY, DEMO_LIBRARY) == Ok(([DEMO_MAIN], None))
    ensures TransferAccount([DEMO_MAIN], DEMO_USER, DEMO_SELF, DEMO_LIBRARY) == Ok(([DEMO_MAIN, DEMO_GENERATED], Some(1)))
    ensures TransferAccount([DEMO_MAIN, DEMO_GENERATED], DEMO_USER, DEMO_THIRD_PARTY, DEMO_LIBRARY) == Ok(([DEMO_MAIN, DEMO_GENERATED], Some(1)))
    ensures TransferAccount([DEMO_MAIN, DEMO_GENERATED], DEMO_USER, DEMO_SELF, DEMO_LIBRARY) == Ok(([DEMO_MAIN, DEMO_GENERATED], Some(1)))
  {
    DemoRowFacts();
    DemoAccountLookups();
  }

  lemma DemoStores()
    ensures BaseImporter.GetOrCreate([], DEMO_UNLINKED) == Outcome([DEMO_UNLINKED], None)
    ensures BaseImporter.GetOrCreate([DEMO_UNLINKED], DEMO_SELF_TRANSFER) == Outcome([DEMO_UNLINKED, DEMO_SELF_TRANSFER], None)
    ensures BaseImporter.GetOrCreate([DEMO_UNLINKED, DEMO_SELF_TRANSFER], DEMO_LINKED)
      == Outcome([DEMO_UNLINKED, DEMO_SELF_TRANSFER, DEMO_LINKED], None)
    ensures BaseImporter.GetOrCreate([DEMO_UNLINKED, DEMO_SELF_TRANSFER, DEMO_LINKED], DEMO_SELF_TRANSFER)
      == Outcome([DEMO_UNLINKED, DEMO_SELF_TRANSFER, DEMO_LINKED], None)
  {
    assert [] + [DEMO_UNLINKED] == [DEMO_UNLINKED];
    assert multiset([DEMO_UNLINKED])[DEMO_SELF_TRANSFER] == 0;
    assert [DEMO_UNLINKED] + [DEMO_SELF_TRANSFER] == [DEMO_UNLINKED, DEMO_SELF_TRANSFER];
    assert multiset([DEMO_UNLINKED, DEMO_SELF_TRANSFER])[DEMO_LINKED] == 0;
    assert [DEMO_UNLINKED, DEMO_SELF_TRANSFER] + [DEMO_LINKED] == [DEMO_UNLINKED, DEMO_SELF_TRANSFER, DEMO_LINKED];
    var table := [DEMO_UNLINKED, DEMO_SELF_TRANSFER, DEMO_LINKED];
    assert table == [DEMO_UNLINKED] + [DEMO_SELF_TRANSFER] + [DEMO_LINKED];
    assert multiset(table)[DEMO_SELF_TRANSFER] == 1;
  }

  lemma DemoFacts()
    ensures DEMO_IMPORTER.user == DEMO_USER && DEMO_USER.id == 1 && DEMO_IMPORTER.iban == Some("DE01")
    ensures BaseImporter.FALLBACK_CATEGORY == "Altro"
    ensures Abs(-5.0) == 5.0
    ensures TransactionType(DEMO_THIRD_PARTY, -5.0) == TRSF && TransactionType(DEMO_SELF, -5.0) == TRSF
  {
    DemoRowFacts();
  }

  /** First import, first row: the main account is created; Bob is not the user, so no transfer account. */
  lemma DemoFirstRow()
    ensures ImportRow(Db([], [DEMO_FALLBACK], []), DEMO_IMPORTER, DEMO_LIBRARY, DEMO_THIRD_PARTY)
      == Outcome(Db([DEMO_MAIN], [DEMO_FALLBACK], [DEMO_UNLINKED]), None)
  {
    DemoRowFacts();
    DemoFacts();
    DemoAccountLookups();
    DemoTransfers();
    DemoFallbackFound();
    DemoStores();
  }

  /** First import, second row: the partner is the user, so the DE99 account is generated. */
  lemma DemoSecondRow()
    ensures ImportRow(Db([DEMO_MAIN], [DEMO_FALLBACK], [DEMO_UNLINKED]), DEMO_IMPORTER, DEMO_LIBRARY, DEMO_SELF)
      == Outcome(Db([DEMO_MAIN, DEMO_GENERATED], [DEMO_FALLBACK], [DEMO_UNLINKED, DEMO_SELF_TRANSFER]), None)
  {
    DemoRowFacts();
    DemoFacts();
    DemoAccountLookups();
    DemoTransfers();
    DemoFallbackFound();
    DemoStores();
  }

  /** Second import, first row: DE99 is now found, and the linked transaction is new. */
  lemma DemoFirstRowAgain()
    ensures ImportRow(Db([DEMO_MAIN, DEMO_GENERATED], [DEMO_FALLBACK], [DEMO_UNLINKED, DEMO_SELF_TRANSFER]), DEMO_IMPORTER, DEMO_LIBRARY, DEMO_THIRD_PARTY)
      == Outcome(Db([DEMO_MAIN, DEMO_GENERATED], [DEMO_FALLBACK], [DEMO_UNLINKED, DEMO_SELF_TRANSFER, DEMO_LINKED]), None)
  {
    DemoRowFacts();
    DemoFacts();
    DemoAccountLookups();
    DemoTransfers();
    DemoFallbackFound();
    DemoStores();
  }

  /** Second import, second row: everything it needs is found. */
  lemma DemoSecondRowAgain()
    ensures ImportRow(Db([DEMO_MAIN, DEMO_GENERATED], [DEMO_FALLBACK], [DEMO_UNLINKED, DEMO_SELF_TRANSFER, DEMO_LINKED]), DEMO_IMPORTER, DEMO_LIBRARY, DEMO_SELF)
      == Outcome(Db([DEMO_MAIN, DEMO_GENERATED], [DEMO_FALLBACK], [DEMO_UNLINKED, DEMO_SELF_TRANSFER, DEMO_LINKED]), None)
  {
    DemoRowFacts();
    DemoFacts();
    DemoAccountLookups();
    DemoTransfers();
    DemoFallbackFound();
    DemoStores();
  }

  lemma DemoFirstRun()
    ensures RunRows(Db([], [DEMO_FALLBACK], []), DEMO_IMPORTER, DEMO_LIBRARY, [DEMO_THIRD_PARTY, DEMO_SELF])
      == Outcome(Db([DEMO_MAIN, DEMO_GENERATED], [DEMO_FALLBACK], [DEMO_UNLINKED, DEMO_SELF_TRANSFER]), None)
  {
    var rows := [DEMO_THIRD_PARTY, DEMO_SELF];
    var d1 := Db([DEMO_MAIN], [DEMO_FALLBACK], [DEMO_UNLINKED]);
    var d2 := Db([DEMO_MAIN, DEMO_GENERATED], [DEMO_FALLBACK], [DEMO_UNLINKED, DEMO_SELF_TRANSFER]);
    assert rows[0] == DEMO_THIRD_PARTY && rows[1..] == [DEMO_SELF] && [DEMO_SELF][1..] == [];
    DemoFirstRow();
    RunRowsStep(Db([], [DEMO_FALLBACK], []), DEMO_IMPORTER, DEMO_LIBRARY, rows);
    DemoSecondRow();
    RunRowsStep(d1, DEMO_IMPORTER, DEMO_LIBRARY, [DEMO_SELF]);
  }

  lemma DemoSecondRun()
    ensures RunRows(Db([DEMO_MAIN, DEMO_GENERATED], [DEMO_FALLBACK], [DEMO_UNLINKED, DEMO_SELF_TRANSFER]), DEMO_IMPORTER, DEMO_LIBRARY, [DEMO_THIRD_PARTY, DEMO_SELF])
      == Outcome(Db([DEMO_MAIN, DEMO_GENERATED], [DEMO_FALLBACK], [DEMO_UNLINKED, DEMO_SELF_TRANSFER, DEMO_LINKED]), None)
  {
    var rows := [DEMO_THIRD_PARTY, DEMO_SELF];
    var d2 := Db([DEMO_MAIN, DEMO_GENERATED], [DEMO_FALLBACK], [DEMO_UNLINKED, DEMO_SELF_TRANSFER]);
    var d3 := Db([DEMO_MAIN, DEMO_GENERATED], [DEMO_FALLBACK], [DEMO_UNLINKED, DEMO_SELF_TRANSFER, DEMO_LINKED]);
    assert rows[0] == DEMO_THIRD_PARTY && rows[1..] == [DEMO_SELF] && [DEMO_SELF][1..] == [];
    DemoFirstRowAgain();
    RunRowsStep(d2, DEMO_IMPORTER, DEMO_LIBRARY, rows);
    DemoSecondRowAgain();
    RunRowsStep(d3, DEMO_IMPORTER, DEMO_LIBRARY, [DEMO_SELF]);
  }

  lemma DemoBreaksLinksStable()
    ensures !LinksStable([DEMO_THIRD_PARTY, DEMO_SELF], DEMO_USER, DEMO_LIBRARY)
  {
    var rows := [DEMO_THIRD_PARTY, DEMO_SELF];
    DemoThirdPartyFacts();
    DemoSelfFacts();
    assert rows[0] == DEMO_THIRD_PARTY && rows[1] == DEMO_SELF;
  }

  lemma DemoFallbackPresent()
    ensures FallbackPresent([DEMO_FALLBACK], DEMO_USER.id)
  {
    assert BaseImporter.CategoryMatches([DEMO_FALLBACK][0], BaseImporter.FALLBACK_CATEGORY, BANK_NAME, Some(1));
  }


  /**
   * Why ReimportIsNoop needs LinksStable: a transfer to DE99 naming a third
   * party, then a transfer to DE99 naming the user. The second row creates the
   * user's DE99 account; importing the same rows again links the first row to
   * it, which makes a different transaction, and a third one is stored.
   */
  lemma ReimportCanRelinkTransfer()
    ensures var rows := [DEMO_THIRD_PARTY, DEMO_SELF];
      var db := Db([], [DEMO_FALLBACK], []);
      var once := RunRows(db, DEMO_IMPORTER, DEMO_LIBRARY, rows);
      var twice := RunRows(once.state, DEMO_IMPORTER, DEMO_LIBRARY, rows);
      !LinksStable(rows, DEMO_USER, DEMO_LIBRARY) && FallbackPresent(db.categories, DEMO_USER.id) &&
      once.failure.None? && |once.state.transactions| == 2 &&
      twice.failure.None? && |twice.state.transactions| == 3
  {
    DemoFirstRun();
    DemoSecondRun();
    DemoBreaksLinksStable();
    DemoFallbackPresent();
  }

  /** Two positions holding the same value make it occur twice. */
  lemma TwoOccurrences<T>(s: seq<T>, i: nat, j: nat)
    requires i < j < |s| && s[i] == s[j]
    ensures multiset(s)[s[i]] >= 2
  {
    assert s == s[..j] + s[j..];
    assert s[i] in s[..j] && s[j..][0] == s[j];
    assert multiset(s) == multiset(s[..j]) + multiset(s[j..]);
  }

  /**
   * As written, `get_category` looks the fallback up by name and importer
   * only, so once two users have seeded the N26 catalogue the lookup matches
   * both "Altro" records and raises MultipleObjectsReturned.
   */
  lemma UnscopedLookupFailsForSecondUser(cats: seq<Category>, u1: UserId, u2: UserId)
    requires u1 != u2
    requires BaseImporter.CategoryRecord(CATEGORIES[ALTRO], BANK_NAME, u1) in cats
    requires BaseImporter.CategoryRecord(CATEGORIES[ALTRO], BANK_NAME, u2) in cats
    ensures BaseImporter.ResolveCategory(cats, BaseImporter.FALLBACK_CATEGORY, BaseImporter.FALLBACK_CATEGORY, BANK_NAME, u2, None)
      == Err(MultipleObjectsReturned)
  {
    CategoryAlwaysFallback();
    var name := BaseImporter.FALLBACK_CATEGORY;
    var i :| 0 <= i < |cats| && cats[i] == BaseImporter.CategoryRecord(CATEGORIES[ALTRO], BANK_NAME, u1);
    var j :| 0 <= j < |cats| && cats[j] == BaseImporter.CategoryRecord(CATEGORIES[ALTRO], BANK_NAME, u2);
    var m := BaseImporter.CategoryLookup(cats, name, BANK_NAME, None);
    assert i in m && j in m && i != j;
  }

  /** Seeding adds only catalogue records, so a user whose N26 categories are catalogue records keeps it that way. */
  lemma SeededRecordIsCatalogued(cats: seq<Category>, user: UserId, c: Category)
    requires forall i :: 0 <= i < |cats| && cats[i].createdBy == user && cats[i].importer == BANK_NAME ==>
      cats[i] in BaseImporter.Records(CATEGORIES, BANK_NAME, user)
    requires c in BaseImporter.SeedCategories(cats, CATEGORIES, BANK_NAME, user).state
    requires c.createdBy == user && c.importer == BANK_NAME
    ensures c in BaseImporter.Records(CATEGORIES, BANK_NAME, user)
  {
  }

  /** The only catalogue record named "Altro" is the one built from the entry at `ALTRO`. */
  lemma CataloguedFallbackIsAltro(user: UserId, c: Category)
    requires c in BaseImporter.Records(CATEGORIES, BANK_NAME, user) && c.name == BaseImporter.FALLBACK_CATEGORY
    ensures c == BaseImporter.Records(CATEGORIES, BANK_NAME, user)[ALTRO]
  {
    var records := BaseImporter.Records(CATEGORIES, BANK_NAME, user);
    var k :| 0 <= k < |records| && records[k] == c;
    CategoryAlwaysFallback();
  }

  /** After seeding, every category the scoped fallback lookup matches is the user's seeded "Altro". */
  lemma SeededFallbackIsCatalogued(cats: seq<Category>, user: UserId)
    requires forall i :: 0 <= i < |cats| && cats[i].createdBy == user && cats[i].importer == BANK_NAME ==>
      cats[i] in BaseImporter.Records(CATEGORIES, BANK_NAME, user)
    requires BaseImporter.SeedCategories(cats, CATEGORIES, BANK_NAME, user).failure.None?
    ensures var seeded := BaseImporter.SeedCategories(cats, CATEGORIES, BANK_NAME, user).state;
      forall i :: 0 <= i < |seeded| && BaseImporter.CategoryMatches(seeded[i], BaseImporter.FALLBACK_CATEGORY, BANK_NAME, Some(user)) ==>
        seeded[i] == BaseImporter.CategoryRecord(CATEGORIES[ALTRO], BANK_NAME, user)
  {
    var seeded := BaseImporter.SeedCategories(cats, CATEGORIES, BANK_NAME, user).state;
    var records := BaseImporter.Records(CATEGORIES, BANK_NAME, user);
    forall i | 0 <= i < |seeded| && BaseImporter.CategoryMatches(seeded[i], BaseImporter.FALLBACK_CATEGORY, BANK_NAME, Some(user))
      ensures seeded[i] == records[ALTRO]
    {
      SeededRecordIsCatalogued(cats, user, seeded[i]);
      CataloguedFallbackIsAltro(user, seeded[i]);
    }
  }

  /** When every match of the scoped fallback lookup is one record stored once, the lookup finds it. */
  lemma OnlyMatchFound(cats: seq<Category>, user: UserId, c: Category)
    requires FallbackPresent(cats, user) && multiset(cats)[c] == 1
    requires forall i :: 0 <= i < |cats| && BaseImporter.CategoryMatches(cats[i], BaseImporter.FALLBACK_CATEGORY, BANK_NAME, Some(user)) ==>
      cats[i] == c
    ensures var r := BaseImporter.ResolveCategory(cats, BaseImporter.FALLBACK_CATEGORY, BaseImporter.FALLBACK_CATEGORY, BANK_NAME, user, Some(user));
      r.Ok? && r.value.0 == cats && cats[r.value.1] == c
  {
    var m := BaseImporter.CategoryLookup(cats, BaseImporter.FALLBACK_CATEGORY, BANK_NAME, Some(user));
    assert |m| >= 1;
    if |m| >= 2 {
      TwoOccurrences(cats, m[0], m[1]);
      assert false;
    }
  }

  /**
   * Scoped to the importing user, the lookup finds that user's own seeded
   * "Altro" whatever categories other users hold, provided the user's N26
   * categories all come from the catalogue.
   */
  lemma ScopedLookupFindsOwnFallback(cats: seq<Category>, user: UserId)
    requires forall i :: 0 <= i < |cats| && cats[i].createdBy == user && cats[i].importer == BANK_NAME ==>
      cats[i] in BaseImporter.Records(CATEGORIES, BANK_NAME, user)
    requires BaseImporter.SeedCategories(cats, CATEGORIES, BANK_NAME, user).failure.None?
    ensures var seeded := BaseImporter.SeedCategories(cats, CATEGORIES, BANK_NAME, user).state;
      var r := BaseImporter.ResolveCategory(seeded, BaseImporter.FALLBACK_CATEGORY, BaseImporter.FALLBACK_CATEGORY, BANK_NAME, user, Some(user));
      r.Ok? && r.value.0 == seeded && seeded[r.value.1] == BaseImporter.CategoryRecord(CATEGORIES[ALTRO], BANK_NAME, user)
  {
    var seeded := BaseImporter.SeedCategories(cats, CATEGORIES, BANK_NAME, user).state;
    var altro := BaseImporter.CategoryRecord(CATEGORIES[ALTRO], BANK_NAME, user);
    SeededFallbackIsCatalogued(cats, user);
    SeedingProvidesFallback(cats, user);
    assert multiset(seeded)[altro] == 1 by {
      AltroEntry();
      BaseImporter.SeedingStoresOnce(cats, CATEGORIES, BANK_NAME, user);
    }
    OnlyMatchFound(seeded, user, altro);
  }

}
