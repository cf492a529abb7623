/**
 * The generic import pipeline's building blocks (base_importer.py): the
 * category catalogue and its seeding, the main-account find-or-create, the
 * row hooks the base class defines, the category lookup and the
 * transaction find-or-create. The row loop itself runs with a concrete
 * bank's hooks and lives in module N26Importer.
 */
module BaseImporter {
  import opened Wrappers
  import opened Text
  import opened Models

  /** One CSV row, already decoded and split into fields. */
  type Row = seq<string>

  /** One entry of an importer's `CATEGORIES` table. */
  datatype CategorySpec = CategorySpec(name: string, icon: string, isIncome: bool)

  /**
   * The library parsing the core calls but does not define: `float(text)` and
   * `datetime.strptime(text, "%Y-%m-%d")`. None stands for the exception they raise.
   */
  datatype Library = Library(parseFloat: string -> Option<real>, parseDate: string -> Option<Date>)

  /** `Importer(user=user, file=file, iban=iban)`; the file is given as its rows. */
  datatype Importer = Importer(user: User, file: seq<Row>, iban: Option<string>)

  const BANK_NAME := "Base Bank"

  const CATEGORIES: seq<CategorySpec> := [
    CategorySpec("Altro", "category", false),
    CategorySpec("Entrata", "attach_money", true),
    CategorySpec("Uscita", "money_off", false)
  ]

  const CSV_FIELDS: map<string, nat> := map["date" := 0, "partner_name" := 1, "description" := 2, "amount" := 3, "currency" := 4]
  const DESCRIPTION: nat := 2
  const AMOUNT: nat := 3

  const NO_DESCRIPTION := "No description"
  const FALLBACK_CATEGORY := "Altro"
  const FALLBACK_ICON := "category"

  /** The Category record a catalogue entry is seeded as. */
  function CategoryRecord(e: CategorySpec, bank: string, user: UserId): (c: Category)
    ensures c.name == e.name && c.icon == e.icon && c.importer == bank && c.createdBy == user
    ensures c.txnType == IN <==> e.isIncome
  {
    Category(e.name, e.icon, if e.isIncome then IN else OUT, bank, user)
  }

  function Records(catalogue: seq<CategorySpec>, bank: string, user: UserId): (rs: seq<Category>)
    ensures |rs| == |catalogue|
    ensures forall i :: 0 <= i < |catalogue| ==> rs[i] == CategoryRecord(catalogue[i], bank, user)
  {
    seq(|catalogue|, i requires 0 <= i < |catalogue| => CategoryRecord(catalogue[i], bank, user))
  }

  /**
   * `objects.get_or_create(**fields)` keyed on every field of the record:
   * inserts it when absent, finds it when present once, and raises
   * MultipleObjectsReturned when it is stored more than once.
   */
  function GetOrCreate<T(==,!new)>(table: seq<T>, x: T): (o: Outcome<seq<T>>)
    ensures o.failure.None? <==> multiset(table)[x] <= 1
    ensures o.failure.Some? ==> o == Outcome(table, Some(MultipleObjectsReturned))
    ensures o.failure.None? ==> multiset(o.state)[x] == 1 && table <= o.state && |o.state| <= |table| + 1
    ensures forall y :: y != x ==> multiset(o.state)[y] == multiset(table)[y]
  {
    var n := multiset(table)[x];
    if n == 0 then Outcome(table + [x], None)
    else if n == 1 then Outcome(table, None)
    else Outcome(table, Some(MultipleObjectsReturned))
  }

  /**
   * `create_bank_categories`: get_or_create of every catalogue entry, in
   * catalogue order, for this user and bank. Only catalogue records are added,
   * and the only exception is a catalogue record already stored twice.
   */
  function SeedCategories(cats: seq<Category>, catalogue: seq<CategorySpec>, bank: string, user: UserId): (o: Outcome<seq<Category>>)
    ensures cats <= o.state
    ensures forall c :: c !in Records(catalogue, bank, user) ==> multiset(o.state)[c] == multiset(cats)[c]
    ensures o.failure.Some? ==> o.failure == Some(MultipleObjectsReturned)
    decreases |catalogue|
  {
    if catalogue == [] then Outcome(cats, None)
    else
      var head := CategoryRecord(catalogue[0], bank, user);
      var o := GetOrCreate(cats, head);
      if o.failure.Some? then o
      else
        var rest := SeedCategories(o.state, catalogue[1..], bank, user);
        assert forall i :: 1 <= i < |catalogue| ==> catalogue[i] == catalogue[1..][i - 1];
        assert forall c :: c in Records(catalogue[1..], bank, user) ==> c in Records(catalogue, bank, user);
        rest
  }

  /** Seeding fails exactly when a catalogue record is already stored twice. */
  lemma {:induction false} SeedingFailsOnDuplicate(cats: seq<Category>, catalogue: seq<CategorySpec>, bank: string, user: UserId)
    ensures SeedCategories(cats, catalogue, bank, user).failure.None? <==>
      forall i :: 0 <= i < |catalogue| ==> multiset(cats)[CategoryRecord(catalogue[i], bank, user)] <= 1
    decreases |catalogue|
  {
    if catalogue != [] {
      var o := GetOrCreate(cats, CategoryRecord(catalogue[0], bank, user));
      SeedStep(cats, catalogue, bank, user);
      if o.failure.None? {
        var tail := catalogue[1..];
        SeedingFailsOnDuplicate(o.state, tail, bank, user);
        assert forall i :: 1 <= i < |catalogue| ==> catalogue[i] == tail[i - 1];
        // Storing the first record once keeps every count at most one exactly where it was.
        forall i | 0 <= i < |catalogue|
          ensures multiset(o.state)[CategoryRecord(catalogue[i], bank, user)] <= 1 <==>
                  multiset(cats)[CategoryRecord(catalogue[i], bank, user)] <= 1
        {
        }
      }
    }
  }

  /** On success every catalogue record is stored exactly once. */
  lemma {:induction false} SeedingStoresOnce(cats: seq<Category>, catalogue: seq<CategorySpec>, bank: string, user: UserId)
    ensures var o := SeedCategories(cats, catalogue, bank, user);
      o.failure.None? ==> forall i :: 0 <= i < |catalogue| ==> multiset(o.state)[CategoryRecord(catalogue[i], bank, user)] == 1
    decreases |catalogue|
  {
    if catalogue != [] {
      var head := CategoryRecord(catalogue[0], bank, user);
      var o := GetOrCreate(cats, head);
      SeedStep(cats, catalogue, bank, user);
      if o.failure.None? {
        var tail := catalogue[1..];
        var rest := SeedCategories(o.state, tail, bank, user);
        SeedingStoresOnce(o.state, tail, bank, user);
        assert forall i :: 1 <= i < |catalogue| ==> catalogue[i] == tail[i - 1];
        if rest.failure.None? {
          if head in Records(tail, bank, user) {
            var j :| 0 <= j < |tail| && Records(tail, bank, user)[j] == head;
            assert multiset(rest.state)[CategoryRecord(tail[j], bank, user)] == 1;
          } else {
            assert multiset(rest.state)[head] == multiset(o.state)[head];
          }
        }
      }
    }
  }

  /** Seeding a table that already holds every catalogue record once changes nothing. */
  lemma {:induction false} SeedingSeededIsNoop(cats: seq<Category>, catalogue: seq<CategorySpec>, bank: string, user: UserId)
    requires forall i :: 0 <= i < |catalogue| ==> multiset(cats)[CategoryRecord(catalogue[i], bank, user)] == 1
    ensures SeedCategories(cats, catalogue, bank, user) == Outcome(cats, None)
  {
    if catalogue != [] {
      assert multiset(cats)[CategoryRecord(catalogue[0], bank, user)] == 1;
      assert forall i :: 1 <= i < |catalogue| ==> catalogue[i] == catalogue[1..][i - 1];
      SeedingSeededIsNoop(cats, catalogue[1..], bank, user);
    }
  }

  /** Seeding is idempotent: a second `create_bank_categories` adds nothing. */
  lemma SeedingIdempotent(cats: seq<Category>, catalogue: seq<CategorySpec>, bank: string, user: UserId)
    requires SeedCategories(cats, catalogue, bank, user).failure.None?
    ensures var seeded := SeedCategories(cats, catalogue, bank, user).state;
      SeedCategories(seeded, catalogue, bank, user) == Outcome(seeded, None)
  {
    SeedingStoresOnce(cats, catalogue, bank, user);
    SeedingSeededIsNoop(SeedCategories(cats, catalogue, bank, user).state, catalogue, bank, user);
  }

  /** One catalogue entry of seeding: its get_or_create, then the rest of the catalogue unless that failed. */
  lemma SeedStep(cats: seq<Category>, catalogue: seq<CategorySpec>, bank: string, user: UserId)
    requires catalogue != []
    ensures var o := GetOrCreate(cats, CategoryRecord(catalogue[0], bank, user));
      SeedCategories(cats, catalogue, bank, user) == if o.failure.Some? then o else SeedCategories(o.state, catalogue[1..], bank, user)
  {
  }

  /** `Category.objects.get_or_create(...)` on the store for one catalogue record. */
  method GetOrCreateCategory(db: Database, record: Category) returns (failure: Option<Failure>)
    modifies db
    ensures var o := GetOrCreate(old(db.categories), record); db.categories == o.state && failure == o.failure
    ensures db.accounts == old(db.accounts) && db.transactions == old(db.transactions)
  {
    var count := multiset(db.categories)[record];
    if count > 1 {
      return Some(MultipleObjectsReturned);
    }
    if count == 0 {
      db.categories := db.categories + [record];
    }
    failure := None;
  }

  /** The imperative `create_bank_categories` loop. */
  method CreateBankCategories(db: Database, catalogue: seq<CategorySpec>, bank: string, user: UserId) returns (failure: Option<Failure>)
    modifies db
    ensures var o := SeedCategories(old(db.categories), catalogue, bank, user);
      db.categories == o.state && failure == o.failure
    ensures db.accounts == old(db.accounts) && db.transactions == old(db.transactions)
  {
    var i := 0;
    while i < |catalogue|
      invariant 0 <= i <= |catalogue|
      invariant SeedCategories(old(db.categories), catalogue, bank, user) == SeedCategories(db.categories, catalogue[i..], bank, user)
      invariant db.accounts == old(db.accounts) && db.transactions == old(db.transactions)
    {
      assert catalogue[i..][0] == catalogue[i] && catalogue[i..][1..] == catalogue[i + 1..];
      SeedStep(db.categories, catalogue[i..], bank, user);
      failure := GetOrCreateCategory(db, CategoryRecord(catalogue[i], bank, user));
      if failure.Some? {
        return;
      }
      i := i + 1;
    }
    failure := None;
  }

  predicate Holds(a: BankAccount, user: UserId, iban: string) {
    a.user == user && a.iban == iban
  }

  /** `BankAccount.objects.filter(user=user, iban=iban).first()`: the lowest primary key that matches. */
  function FirstAccount(accs: seq<BankAccount>, user: UserId, iban: string): (r: Option<nat>)
    ensures r.Some? ==> r.value < |accs| && Holds(accs[r.value], user, iban)
    ensures r.Some? ==> forall j :: 0 <= j < r.value ==> !Holds(accs[j], user, iban)
    ensures r.None? <==> forall j :: 0 <= j < |accs| ==> !Holds(accs[j], user, iban)
  {
    if accs == [] then None
    else if Holds(accs[0], user, iban) then Some(0)
    else
      match FirstAccount(accs[1..], user, iban)
      case None => None
      case Some(k) => Some(k + 1)
  }

  /** A record appended to a table with no match is the first match of the longer table. */
  lemma FirstAccountAppended(accs: seq<BankAccount>, a: BankAccount, user: UserId, iban: string)
    requires FirstAccount(accs, user, iban).None? && Holds(a, user, iban)
    ensures FirstAccount(accs + [a], user, iban) == Some(|accs|)
  {
    var more := accs + [a];
    assert more[|accs|] == a;
    var r := FirstAccount(more, user, iban);
    assert r.Some? && r.value >= |accs|;
  }

  /** Appending records never changes which record a lookup finds first. */
  lemma FirstAccountStable(accs: seq<BankAccount>, more: seq<BankAccount>, user: UserId, iban: string)
    requires accs <= more && FirstAccount(accs, user, iban).Some?
    ensures FirstAccount(more, user, iban) == FirstAccount(accs, user, iban)
  {
    var k := FirstAccount(accs, user, iban).value;
    assert more[k] == accs[k];
    assert forall j :: 0 <= j < k ==> more[j] == accs[j];
  }

  /**
   * `get_or_create_main_account`: the user's account with the importer's IBAN,
   * created under the bank's name when there is none. Without an IBAN the
   * lookup finds nothing and the insert breaks the NOT NULL constraint; an IBAN
   * held by another user's account breaks the UNIQUE constraint.
   */
  function MainAccount(accs: seq<BankAccount>, user: UserId, iban: Option<string>, bankName: string): (r: Result<(seq<BankAccount>, nat), Failure>)
    ensures r.Ok? ==> accs <= r.value.0 && r.value.1 < |r.value.0|
    ensures r.Ok? ==> Some(r.value.0[r.value.1].iban) == iban && r.value.0[r.value.1].user == user
    ensures iban.Some? && FirstAccount(accs, user, iban.value).Some? ==>
      r == Ok((accs, FirstAccount(accs, user, iban.value).value))
    ensures r.Ok? && r.value.0 != accs ==>
      r.value.0 == accs + [BankAccount(user, bankName, iban.value, false, "")]
    ensures r.Err? <==> iban.None? || (FirstAccount(accs, user, iban.value).None? && IbanTaken(accs, iban.value, None))
    ensures r.Err? ==> r.error == IntegrityError
    ensures r.Ok? && UniqueIbans(accs) ==> UniqueIbans(r.value.0)
    ensures r.Ok? && AtMostOneMain(accs) ==> AtMostOneMain(r.value.0)
  {
    if iban.Some? && FirstAccount(accs, user, iban.value).Some? then
      Ok((accs, FirstAccount(accs, user, iban.value).value))
    else
      Create(accs, user, iban, bankName)
  }

  /** The account `get_or_create_main_account` returns is the first of the user's accounts with that IBAN in the resulting table. */
  lemma MainAccountIsFirst(accs: seq<BankAccount>, user: UserId, iban: Option<string>, bankName: string)
    requires MainAccount(accs, user, iban, bankName).Ok?
    ensures var (accs', k) := MainAccount(accs, user, iban, bankName).value;
      FirstAccount(accs', user, iban.value) == Some(k)
  {
    if FirstAccount(accs, user, iban.value).None? {
      FirstAccountAppended(accs, BankAccount(user, bankName, iban.value, false, ""), user, iban.value);
    }
  }

  /**
   * Any later `get_or_create_main_account`, on the table as it stood or with
   * more records appended, finds the account the first one returned and
   * creates nothing.
   */
  lemma MainAccountSecondCall(accs: seq<BankAccount>, more: seq<BankAccount>, user: UserId, iban: Option<string>, bankName: string)
    requires MainAccount(accs, user, iban, bankName).Ok?
    requires MainAccount(accs, user, iban, bankName).value.0 <= more
    ensures MainAccount(more, user, iban, bankName) == Ok((more, MainAccount(accs, user, iban, bankName).value.1))
  {
    var (accs', k) := MainAccount(accs, user, iban, bankName).value;
    MainAccountIsFirst(accs, user, iban, bankName);
    FirstAccountStable(accs', more, user, iban.value);
  }

  /** The imperative `get_or_create_main_account`. */
  method GetOrCreateMainAccount(db: Database, imp: Importer, bankName: string) returns (r: Result<nat, Failure>)
    modifies db
    ensures match MainAccount(old(db.accounts), imp.user.id, imp.iban, bankName)
      case Ok(v) => db.accounts == v.0 && r == Ok(v.1)
      case Err(e) => db.accounts == old(db.accounts) && r == Err(e)
    ensures db.categories == old(db.categories) && db.transactions == old(db.transactions)
  {
    if imp.iban.Some? {
      var found := FirstAccount(db.accounts, imp.user.id, imp.iban.value);
      if found.Some? {
        return Ok(found.value);
      }
    }
    r := db.CreateAccount(imp.user.id, imp.iban, bankName);
  }

  /** `get_description`: the stripped description field, or the placeholder when that is blank. */
  function Description(row: Row): (r: string)
    requires DESCRIPTION < |row|
    ensures r != [] && !IsSpace(r[0]) && !IsSpace(r[|r| - 1])
    ensures (forall i :: 0 <= i < |row[DESCRIPTION]| ==> IsSpace(row[DESCRIPTION][i])) ==> r == NO_DESCRIPTION
    ensures (exists i :: 0 <= i < |row[DESCRIPTION]| && !IsSpace(row[DESCRIPTION][i])) ==> r == Strip(row[DESCRIPTION])
  {
    var description := Strip(row[DESCRIPTION]);
    if description != "" then description else NO_DESCRIPTION
  }

  /** `get_transaction_type`: income for a non-negative amount, expense otherwise; never a transfer. */
  function TransactionType(amount: real): (t: TxnType)
    ensures t == IN <==> amount >= 0.0
    ensures t == OUT <==> amount < 0.0
  {
    if amount >= 0.0 then IN else OUT
  }

  /** `is_valid_row`: the amount field exists and parses; any exception makes the row invalid. */
  predicate IsValidRow(lib: Library, row: Row, amountField: nat) {
    amountField < |row| && lib.parseFloat(row[amountField]).Some?
  }

  /** `read_csv_content`: drops the header row; an empty file raises StopIteration. */
  function ReadCsvContent(file: seq<Row>): (r: Result<seq<Row>, Failure>)
    ensures r.Err? <==> file == []
    ensures r.Err? ==> r.error == NoHeaderRow
    ensures r.Ok? ==> file == [file[0]] + r.value
  {
    if file == [] then Err(NoHeaderRow) else Ok(file[1..])
  }

  /** The lookup `Category.objects.get` runs; `scope` None leaves out the user, as `get_category` does. */
  predicate CategoryMatches(c: Category, name: string, bank: string, scope: Option<UserId>) {
    c.name == name && c.importer == bank && (scope.Some? ==> c.createdBy == scope.value)
  }

  /** The primary keys of the matching categories, ascending. */
  function CategoryLookup(cats: seq<Category>, name: string, bank: string, scope: Option<UserId>): (m: seq<nat>)
    ensures forall k :: 0 <= k < |m| ==> m[k] < |cats| && CategoryMatches(cats[m[k]], name, bank, scope)
    ensures forall i :: 0 <= i < |cats| && CategoryMatches(cats[i], name, bank, scope) ==> i in m
    ensures forall k, l :: 0 <= k < l < |m| ==> m[k] < m[l]
    decreases |cats|
  {
    if cats == [] then []
    else
      var rest := CategoryLookup(cats[..|cats| - 1], name, bank, scope);
      if CategoryMatches(cats[|cats| - 1], name, bank, scope) then rest + [|cats| - 1] else rest
  }

  /**
   * `get_category(name, fallback)`: the one category the lookup matches; when
   * none matches, a new expense category named `fallback` with the generic
   * icon; more than one match raises MultipleObjectsReturned.
   */
  function ResolveCategory(cats: seq<Category>, name: string, fallback: string, bank: string, user: UserId, scope: Option<UserId>): (r: Result<(seq<Category>, nat), Failure>)
    ensures r.Err? <==> |CategoryLookup(cats, name, bank, scope)| >= 2
    ensures r.Err? ==> r.error == MultipleObjectsReturned
    ensures r.Ok? && r.value.0 == cats ==>
      r.value.1 < |cats| && CategoryMatches(cats[r.value.1], name, bank, scope) &&
      forall i :: 0 <= i < |cats| && CategoryMatches(cats[i], name, bank, scope) ==> i == r.value.1
    ensures r.Ok? && r.value.0 != cats ==>
      (forall i :: 0 <= i < |cats| ==> !CategoryMatches(cats[i], name, bank, scope)) &&
      r.value == (cats + [Category(fallback, FALLBACK_ICON, OUT, bank, user)], |cats|)
  {
    var m := CategoryLookup(cats, name, bank, scope);
    if |m| == 1 then Ok((cats, m[0]))
    else if |m| == 0 then Ok((cats + [Category(fallback, FALLBACK_ICON, OUT, bank, user)], |cats|))
    else Err(MultipleObjectsReturned)
  }

  /** The imperative `get_category`, with the lookup scoped to the importing user. */
  method GetCategory(db: Database, name: string, fallback: string, bank: string, user: UserId) returns (r: Result<nat, Failure>)
    modifies db
    ensures match ResolveCategory(old(db.categories), name, fallback, bank, user, Some(user))
      case Ok(v) => db.categories == v.0 && r == Ok(v.1)
      case Err(e) => db.categories == old(db.categories) && r == Err(e)
    ensures db.accounts == old(db.accounts) && db.transactions == old(db.transactions)
  {
    var matches := CategoryLookup(db.categories, name, bank, Some(user));
    if |matches| == 1 {
      return Ok(matches[0]);
    }
    if |matches| > 1 {
      return Err(MultipleObjectsReturned);
    }
    r := Ok(|db.categories|);
    db.categories := db.categories + [Category(fallback, FALLBACK_ICON, OUT, bank, user)];
  }

  /** `Transaction.objects.get_or_create(...)` on the full field tuple. */
  method GetOrCreateTransaction(db: Database, t: Transaction) returns (failure: Option<Failure>)
    modifies db
    ensures var o := GetOrCreate(old(db.transactions), t); db.transactions == o.state && failure == o.failure
    ensures db.accounts == old(db.accounts) && db.categories == old(db.categories)
  {
    var count := multiset(db.transactions)[t];
    if count > 1 {
      return Some(MultipleObjectsReturned);
    }
    if count == 0 {
      db.transactions := db.transactions + [t];
    }
    failure := None;
  }
}
