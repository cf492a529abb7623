/**
 * The SOSSOLDI export (services/export.py): a header row, one row per bank
 * account of the user, one per transaction handed to the exporter and, when
 * there are categories, one per category. Rows are lists of cells; writing
 * them out as CSV text is left to the csv library.
 */
module Export {
  import opened Wrappers
  import opened Text
  import opened Models

  /** What `csv.writer` receives in one position: a string, an integer or a number. */
  datatype Cell = Str(text: string) | Int(n: int) | Num(x: real)

  type CsvRow = seq<Cell>

  /** The column names the header holds, in order. */
  const HEADER_COLUMNS: seq<string> := [
    "table_name", "id", "name", "symbol", "color", "startingValue", "active", "mainAccount",
    "createdAt", "updatedAt", "countNetWorth", "date", "amount", "type", "note", "idCategory",
    "idBankAccount", "idBankAccountTransfer", "recurring", "idRecurringTransaction", "fromDate",
    "toDate", "recurrency", "lastInsertion", "parent", "amountLimit", "code", "mainCurrency"]

  /** The header line: the column names separated by commas. */
  function SossoldiHeader(): string
  {
    Join(HEADER_COLUMNS, ',')
  }

  const COLUMNS: nat := 28

  // Positions of the columns the rows fill in.
  const TABLE_NAME: nat := 0
  const ID: nat := 1
  const NAME: nat := 2
  const SYMBOL: nat := 3
  const COLOR: nat := 4
  const STARTING_VALUE: nat := 5
  const ACTIVE: nat := 6
  const MAIN_ACCOUNT: nat := 7
  const CREATED_AT: nat := 8
  const UPDATED_AT: nat := 9
  const COUNT_NET_WORTH: nat := 10
  const DATE: nat := 11
  const AMOUNT: nat := 12
  const TYPE: nat := 13
  const NOTE: nat := 14
  const ID_CATEGORY: nat := 15
  const ID_BANK_ACCOUNT: nat := 16
  const ID_BANK_ACCOUNT_TRANSFER: nat := 17
  const RECURRING: nat := 18

  // The position constants name their columns, half of them at a time.
  lemma ColumnNamesFirst()
    ensures HEADER_COLUMNS[TABLE_NAME] == "table_name" && HEADER_COLUMNS[ID] == "id" && HEADER_COLUMNS[NAME] == "name"
    ensures HEADER_COLUMNS[SYMBOL] == "symbol" && HEADER_COLUMNS[COLOR] == "color"
    ensures HEADER_COLUMNS[STARTING_VALUE] == "startingValue" && HEADER_COLUMNS[ACTIVE] == "active"
    ensures HEADER_COLUMNS[MAIN_ACCOUNT] == "mainAccount" && HEADER_COLUMNS[CREATED_AT] == "createdAt"
  {
  }

  lemma ColumnNamesSecond()
    ensures HEADER_COLUMNS[UPDATED_AT] == "updatedAt" && HEADER_COLUMNS[COUNT_NET_WORTH] == "countNetWorth"
    ensures HEADER_COLUMNS[DATE] == "date" && HEADER_COLUMNS[AMOUNT] == "amount" && HEADER_COLUMNS[TYPE] == "type"
    ensures HEADER_COLUMNS[NOTE] == "note" && HEADER_COLUMNS[ID_CATEGORY] == "idCategory"
    ensures HEADER_COLUMNS[ID_BANK_ACCOUNT] == "idBankAccount" && HEADER_COLUMNS[ID_BANK_ACCOUNT_TRANSFER] == "idBankAccountTransfer"
    ensures HEADER_COLUMNS[RECURRING] == "recurring"
  {
  }

  /** Each position constant names its column of the header. */
  lemma ColumnNames()
    ensures |HEADER_COLUMNS| == COLUMNS
    ensures HEADER_COLUMNS[TABLE_NAME] == "table_name" && HEADER_COLUMNS[ID] == "id" && HEADER_COLUMNS[NAME] == "name"
    ensures HEADER_COLUMNS[SYMBOL] == "symbol" && HEADER_COLUMNS[COLOR] == "color"
    ensures HEADER_COLUMNS[STARTING_VALUE] == "startingValue" && HEADER_COLUMNS[ACTIVE] == "active"
    ensures HEADER_COLUMNS[MAIN_ACCOUNT] == "mainAccount" && HEADER_COLUMNS[CREATED_AT] == "createdAt"
    ensures HEADER_COLUMNS[UPDATED_AT] == "updatedAt" && HEADER_COLUMNS[COUNT_NET_WORTH] == "countNetWorth"
    ensures HEADER_COLUMNS[DATE] == "date" && HEADER_COLUMNS[AMOUNT] == "amount" && HEADER_COLUMNS[TYPE] == "type"
    ensures HEADER_COLUMNS[NOTE] == "note" && HEADER_COLUMNS[ID_CATEGORY] == "idCategory"
    ensures HEADER_COLUMNS[ID_BANK_ACCOUNT] == "idBankAccount" && HEADER_COLUMNS[ID_BANK_ACCOUNT_TRANSFER] == "idBankAccountTransfer"
    ensures HEADER_COLUMNS[RECURRING] == "recurring"
  {
    ColumnNamesFirst();
    ColumnNamesSecond();
  }

  // No column name holds the separator, a quarter of the header at a time.
  lemma NoCommaFirst()
    ensures forall i :: 0 <= i < 7 ==> ',' !in HEADER_COLUMNS[i]
  {
  }

  lemma NoCommaSecond()
    ensures forall i :: 7 <= i < 14 ==> ',' !in HEADER_COLUMNS[i]
  {
  }

  lemma NoCommaThird()
    ensures forall i :: 14 <= i < 21 ==> ',' !in HEADER_COLUMNS[i]
  {
  }

  lemma NoCommaFourth()
    ensures forall i :: 21 <= i < 28 ==> ',' !in HEADER_COLUMNS[i]
  {
  }

  /** No column name holds the separator. */
  lemma ColumnsHaveNoComma()
    ensures forall i :: 0 <= i < |HEADER_COLUMNS| ==> ',' !in HEADER_COLUMNS[i]
  {
    NoCommaFirst();
    NoCommaSecond();
    NoCommaThird();
    NoCommaFourth();
  }

  /** Splitting the header line on commas gives back the 28 column names. */
  lemma HeaderColumns()
    ensures Split(SossoldiHeader(), ',') == HEADER_COLUMNS
  {
    ColumnsHaveNoComma();
    SplitJoin(HEADER_COLUMNS, ',');
  }

  /** One string cell per name, in order. */
  function NameCells(names: seq<string>): (r: CsvRow)
    ensures |r| == |names| && forall i :: 0 <= i < |names| ==> r[i] == Str(names[i])
  {
    seq(|names|, i requires 0 <= i < |names| => Str(names[i]))
  }

  /** The first output row: one cell per column. */
  function HeaderRow(): (r: CsvRow)
    ensures |r| == COLUMNS
  {
    NameCells(HEADER_COLUMNS)
  }

  /** Each cell of the first row is the matching comma-separated name of the header line. */
  lemma HeaderRowCells()
    ensures var names := Split(SossoldiHeader(), ',');
      |names| == |HeaderRow()| && forall i :: 0 <= i < |names| ==> HeaderRow()[i] == Str(names[i])
  {
    HeaderColumns();
  }

  /**
   * `Exporter(transactions, user, categories, in_categories)`: the
   * transactions come with their primary keys; `categories or []` and
   * `in_categories or []` are the empty lists when absent.
   */
  datatype Exporter = Exporter(transactions: seq<(nat, Transaction)>, user: UserId, categories: seq<Category>, inCategories: seq<string>)

  /** The row of the bank account with primary key `pk`. */
  function AccountRow(pk: nat, a: BankAccount, now: string): (r: CsvRow)
    ensures |r| == COLUMNS
  {
    [Str("bankAccount"), Int(pk), Str(a.name), Str("payments"), Int(pk), Num(0.0), Int(1),
     Int(if a.mainAccount then 1 else 0), Str(now), Str(now), Str(""), Str("1")] +
    seq(COLUMNS - AMOUNT, _ => Str(""))
  }

  /**
   * What a bankAccount row holds: the account's key twice (id and color), its
   * name, the "payments" icon, a zero starting value, active, the main flag
   * as 1 or 0, the export time, and "1" under date; the transaction columns
   * stay empty.
   */
  lemma AccountRowCells(pk: nat, a: BankAccount, now: string)
    ensures var r := AccountRow(pk, a, now);
      && r[TABLE_NAME] == Str("bankAccount") && r[ID] == Int(pk) && r[NAME] == Str(a.name)
      && r[SYMBOL] == Str("payments") && r[COLOR] == Int(pk) && r[STARTING_VALUE] == Num(0.0)
      && r[ACTIVE] == Int(1) && r[MAIN_ACCOUNT] == Int(if a.mainAccount then 1 else 0)
      && r[CREATED_AT] == Str(now) && r[UPDATED_AT] == Str(now)
      && r[COUNT_NET_WORTH] == Str("") && r[DATE] == Str("1")
      && (forall i :: AMOUNT <= i < COLUMNS ==> r[i] == Str(""))
  {
  }

  /** The row of the transaction with primary key `pk`; `stamp` is `strftime("%Y-%m-%d %H:%M:%S.%f")`. */
  function TransactionRow(pk: nat, t: Transaction, stamp: Date -> string): (r: CsvRow)
    ensures |r| == COLUMNS
  {
    var when := Str(stamp(t.date));
    [Str("transaction"), Int(pk), Str(""), Str(""), Str(""), Str(""), Str(""), Str(""), when, when, Str(""), when,
     Num(Abs(t.amount)), Str(Code(t.txnType)), Str(t.description),
     if t.category.Some? then Int(t.category.value) else Str(""),
     Int(t.account),
     if t.transfer.Some? then Int(t.transfer.value) else Str(""),
     Int(0)] +
    seq(COLUMNS - RECURRING - 1, _ => Str(""))
  }

  /**
   * The leading cells of a transaction row: its key, the booking date stamped
   * under createdAt, updatedAt and date, and the account columns empty.
   */
  lemma TransactionRowHead(pk: nat, t: Transaction, stamp: Date -> string)
    ensures var r := TransactionRow(pk, t, stamp);
      && r[TABLE_NAME] == Str("transaction") && r[ID] == Int(pk)
      && (forall i :: NAME <= i < CREATED_AT ==> r[i] == Str(""))
      && r[CREATED_AT] == Str(stamp(t.date)) && r[UPDATED_AT] == Str(stamp(t.date)) && r[DATE] == Str(stamp(t.date))
      && r[COUNT_NET_WORTH] == Str("")
  {
  }

  /**
   * The transaction cells: the size of the amount, the type code, the
   * description as note, the category and transfer keys or empty, the
   * account key, not recurring, and nothing after.
   */
  lemma TransactionRowBody(pk: nat, t: Transaction, stamp: Date -> string)
    ensures var r := TransactionRow(pk, t, stamp);
      && r[AMOUNT] == Num(Abs(t.amount))
      && r[TYPE] == Str(Code(t.txnType)) && r[NOTE] == Str(t.description)
      && r[ID_CATEGORY] == (if t.category.Some? then Int(t.category.value) else Str(""))
      && r[ID_BANK_ACCOUNT] == Int(t.account)
      && r[ID_BANK_ACCOUNT_TRANSFER] == (if t.transfer.Some? then Int(t.transfer.value) else Str(""))
      && r[RECURRING] == Int(0)
      && (forall i :: RECURRING < i < COLUMNS ==> r[i] == Str(""))
  {
  }

  /** The row of the `idx`-th category: one cell shorter than the header. */
  function CategoryRow(idx: nat, c: Category, inCategories: seq<string>, now: string): (r: CsvRow)
    ensures |r| == COLUMNS - 1
  {
    var baseId := 10;
    [Str("categoryTransaction"), Int(baseId + idx), Str(c.name), Str(c.icon), Int(idx), Str(""), Str(""), Str(""),
     Str(now), Str(now), Str(""), Str(""), Str(""), Str(if c.name in inCategories then "IN" else "OUT")] +
    seq(COLUMNS - 1 - TYPE - 1, _ => Str(""))
  }

  /**
   * What a categoryTransaction row holds: id 10 plus its position, its name
   * and icon, its position as color, the export time, and type "IN" exactly
   * when its name is among the income categories, else "OUT".
   */
  lemma CategoryRowCells(idx: nat, c: Category, inCategories: seq<string>, now: string)
    ensures var r := CategoryRow(idx, c, inCategories, now);
      && r[TABLE_NAME] == Str("categoryTransaction") && r[ID] == Int(10 + idx) && r[NAME] == Str(c.name)
      && r[SYMBOL] == Str(c.icon) && r[COLOR] == Int(idx)
      && r[CREATED_AT] == Str(now) && r[UPDATED_AT] == Str(now)
      && (r[TYPE] == Str("IN") <==> c.name in inCategories)
      && (r[TYPE] == Str("IN") || r[TYPE] == Str("OUT"))
      && (forall i :: STARTING_VALUE <= i < COLUMNS - 1 && i != CREATED_AT && i != UPDATED_AT && i != TYPE ==> r[i] == Str(""))
  {
  }

  /** `BankAccount.objects.filter(user=user)`: the primary keys of the user's accounts, ascending. */
  function OwnAccounts(accs: seq<BankAccount>, user: UserId): (pks: seq<nat>)
    ensures forall k :: 0 <= k < |pks| ==> pks[k] < |accs| && accs[pks[k]].user == user
    ensures forall pk :: 0 <= pk < |accs| && accs[pk].user == user ==> pk in pks
    ensures forall k, l :: 0 <= k < l < |pks| ==> pks[k] < pks[l]
  {
    if accs == [] then []
    else
      var rest := OwnAccounts(accs[..|accs| - 1], user);
      if accs[|accs| - 1].user == user then rest + [|accs| - 1] else rest
  }

  /** The bankAccount rows, one per account of the user, in primary-key order. */
  function AccountRows(accs: seq<BankAccount>, user: UserId, now: string): (rows: seq<CsvRow>)
    ensures |rows| == |OwnAccounts(accs, user)|
    ensures forall k :: 0 <= k < |rows| ==>
      rows[k] == AccountRow(OwnAccounts(accs, user)[k], accs[OwnAccounts(accs, user)[k]], now)
  {
    if accs == [] then []
    else
      var last := |accs| - 1;
      var rows := AccountRows(accs[..last], user, now);
      assert forall pk :: 0 <= pk < last ==> accs[..last][pk] == accs[pk];
      if accs[last].user == user then rows + [AccountRow(last, accs[last], now)] else rows
  }

  /** The transaction rows, in the order the exporter was given the transactions. */
  function TransactionRows(txs: seq<(nat, Transaction)>, stamp: Date -> string): (rows: seq<CsvRow>)
    ensures |rows| == |txs|
    ensures forall k :: 0 <= k < |txs| ==> rows[k] == TransactionRow(txs[k].0, txs[k].1, stamp)
  {
    if txs == [] then []
    else
      var last := |txs| - 1;
      TransactionRows(txs[..last], stamp) + [TransactionRow(txs[last].0, txs[last].1, stamp)]
  }

  /** The category rows, numbered from 0 in the order given. */
  function CategoryRows(cats: seq<Category>, inCategories: seq<string>, now: string): (rows: seq<CsvRow>)
    ensures |rows| == |cats|
    ensures forall k :: 0 <= k < |cats| ==> rows[k] == CategoryRow(k, cats[k], inCategories, now)
  {
    if cats == [] then []
    else
      var last := |cats| - 1;
      CategoryRows(cats[..last], inCategories, now) + [CategoryRow(last, cats[last], inCategories, now)]
  }

  /** One more account: a row for it when it is the user's. */
  lemma AccountRowsStep(accs: seq<BankAccount>, pk: nat, user: UserId, now: string)
    requires pk < |accs|
    ensures AccountRows(accs[..pk + 1], user, now) ==
      AccountRows(accs[..pk], user, now) + (if accs[pk].user == user then [AccountRow(pk, accs[pk], now)] else [])
  {
    assert accs[..pk + 1][..pk] == accs[..pk];
  }

  lemma TransactionRowsStep(txs: seq<(nat, Transaction)>, i: nat, stamp: Date -> string)
    requires i < |txs|
    ensures TransactionRows(txs[..i + 1], stamp) == TransactionRows(txs[..i], stamp) + [TransactionRow(txs[i].0, txs[i].1, stamp)]
  {
    assert txs[..i + 1][..i] == txs[..i];
  }

  lemma CategoryRowsStep(cats: seq<Category>, idx: nat, inCategories: seq<string>, now: string)
    requires idx < |cats|
    ensures CategoryRows(cats[..idx + 1], inCategories, now) ==
      CategoryRows(cats[..idx], inCategories, now) + [CategoryRow(idx, cats[idx], inCategories, now)]
  {
    assert cats[..idx + 1][..idx] == cats[..idx];
  }

  /** Everything `render_transactions_to_csv` writes, row by row. */
  function Render(e: Exporter, accs: seq<BankAccount>, now: string, stamp: Date -> string): (r: seq<CsvRow>)
    ensures |r| == 1 + |OwnAccounts(accs, e.user)| + |e.transactions| + |e.categories| && r[0] == HeaderRow()
  {
    [HeaderRow()] + AccountRows(accs, e.user, now) + TransactionRows(e.transactions, stamp) +
    (if e.categories != [] then CategoryRows(e.categories, e.inCategories, now) else [])
  }

  /** The rows after a prefix are those of the suffix. */
  lemma Pair<T>(x: seq<T>, y: seq<T>)
    ensures forall k :: 0 <= k < |y| ==> (x + y)[|x| + k] == y[k]
  {
  }

  /** The rows of a prefix keep their positions. */
  lemma Prefix<T>(x: seq<T>, y: seq<T>)
    ensures forall k :: 0 <= k < |x| ==> (x + y)[k] == x[k]
  {
  }

  /** The rows of the second of four blocks sit right after the first. */
  lemma Middle<T>(h: seq<T>, x: seq<T>, y: seq<T>, z: seq<T>)
    ensures forall k :: 0 <= k < |x| ==> (h + x + y + z)[|h| + k] == x[k]
  {
    Prefix(h + x + y, z);
    Prefix(h + x, y);
    Pair(h, x);
  }

  /** Right after the header come the user's bank accounts, in primary-key order. */
  lemma AccountBlock(e: Exporter, accs: seq<BankAccount>, now: string, stamp: Date -> string)
    ensures var r := Render(e, accs, now, stamp); var own := OwnAccounts(accs, e.user);
      forall k :: 0 <= k < |own| ==> r[1 + k] == AccountRow(own[k], accs[own[k]], now)
  {
    var a := AccountRows(accs, e.user, now);
    var t := TransactionRows(e.transactions, stamp);
    var c := if e.categories != [] then CategoryRows(e.categories, e.inCategories, now) else [];
    Middle([HeaderRow()], a, t, c);
  }

  /** Then the transactions, in the order the exporter was given them. */
  lemma TransactionBlock(e: Exporter, accs: seq<BankAccount>, now: string, stamp: Date -> string)
    ensures var r := Render(e, accs, now, stamp); var na := |OwnAccounts(accs, e.user)|;
      forall k :: 0 <= k < |e.transactions| ==>
        r[1 + na + k] == TransactionRow(e.transactions[k].0, e.transactions[k].1, stamp)
  {
    var head := [HeaderRow()] + AccountRows(accs, e.user, now);
    var t := TransactionRows(e.transactions, stamp);
    var c := if e.categories != [] then CategoryRows(e.categories, e.inCategories, now) else [];
    Pair(head, t + c);
  }

  /** Last the categories, numbered from 0. */
  lemma CategoryBlock(e: Exporter, accs: seq<BankAccount>, now: string, stamp: Date -> string)
    ensures var r := Render(e, accs, now, stamp); var na, nt := |OwnAccounts(accs, e.user)|, |e.transactions|;
      forall k :: 0 <= k < |e.categories| ==>
        r[1 + na + nt + k] == CategoryRow(k, e.categories[k], e.inCategories, now)
  {
    var head := [HeaderRow()] + AccountRows(accs, e.user, now) + TransactionRows(e.transactions, stamp);
    var c := if e.categories != [] then CategoryRows(e.categories, e.inCategories, now) else [];
    Pair(head, c);
  }

  /** With no transactions and no categories only the header and the account rows are written. */
  lemma AccountsOnlyExport(e: Exporter, accs: seq<BankAccount>, now: string, stamp: Date -> string)
    requires e.transactions == [] && e.categories == []
    ensures Render(e, accs, now, stamp) == [HeaderRow()] + AccountRows(accs, e.user, now)
  {
  }

  /** `render_transactions_to_csv`: the header, then three loops appending rows. */
  method AppendAccountRows(written: seq<CsvRow>, db: Database, user: UserId, now: string) returns (rows: seq<CsvRow>)
    ensures rows == written + AccountRows(db.accounts, user, now)
  {
    rows := written;
    var pk := 0;
    while pk < |db.accounts|
      invariant 0 <= pk <= |db.accounts|
      invariant rows == written + AccountRows(db.accounts[..pk], user, now)
    {
      AccountRowsStep(db.accounts, pk, user, now);
      if db.accounts[pk].user == user {
        rows := rows + [AccountRow(pk, db.accounts[pk], now)];
      }
      pk := pk + 1;
    }
    assert db.accounts[..pk] == db.accounts;
  }

  method AppendTransactionRows(written: seq<CsvRow>, txs: seq<(nat, Transaction)>, stamp: Date -> string) returns (rows: seq<CsvRow>)
    ensures rows == written + TransactionRows(txs, stamp)
  {
    rows := written;
    var i := 0;
    while i < |txs|
      invariant 0 <= i <= |txs|
      invariant rows == written + TransactionRows(txs[..i], stamp)
    {
      TransactionRowsStep(txs, i, stamp);
      rows := rows + [TransactionRow(txs[i].0, txs[i].1, stamp)];
      i := i + 1;
    }
    assert txs[..i] == txs;
  }

  method AppendCategoryRows(written: seq<CsvRow>, cats: seq<Category>, inCategories: seq<string>, now: string) returns (rows: seq<CsvRow>)
    ensures rows == written + CategoryRows(cats, inCategories, now)
  {
    rows := written;
    var idx := 0;
    while idx < |cats|
      invariant 0 <= idx <= |cats|
      invariant rows == written + CategoryRows(cats[..idx], inCategories, now)
    {
      CategoryRowsStep(cats, idx, inCategories, now);
      rows := rows + [CategoryRow(idx, cats[idx], inCategories, now)];
      idx := idx + 1;
    }
    assert cats[..idx] == cats;
  }

  /** The header row as the exporter builds it: the header line split on commas. */
  method WriteHeader() returns (row: CsvRow)
    ensures row == HeaderRow()
  {
    var names := Split(SossoldiHeader(), ',');
    HeaderColumns();
    row := NameCells(names);
  }

  method RenderTransactionsToCsv(e: Exporter, db: Database, now: string, stamp: Date -> string) returns (rows: seq<CsvRow>)
    ensures rows == Render(e, db.accounts, now, stamp)
  {
    var header := WriteHeader();
    rows := AppendAccountRows([header], db, e.user, now);
    rows := AppendTransactionRows(rows, e.transactions, stamp);
    if e.categories != [] {
      rows := AppendCategoryRows(rows, e.categories, e.inCategories, now);
    }
  }
}
