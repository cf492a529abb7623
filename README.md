# sossoldi-companion transaction manager in Dafny

A model of the core of the `transactionmanager` Django app of
sossoldi-companion. The app imports bank CSV statements into a per-user store
of bank accounts, categories and transactions. It exports that store in the
CSV layout of the SOSSOLDI budgeting app. It also keeps each user down to one
main account.

The model replaces the Django ORM with an in-memory store. `Models.Database`
is a class with one `seq` field per table, and `Models.Db` is the same three
tables as a value. A record's primary key is its position in its table; the
core never deletes a record, so positions are stable. Every imperative method
is proved against a pure function over `Db` or over one table. The
properties are proved about those functions.

| file | models |
|---|---|
| `wrappers.dfy` | `Option` and `Result` |
| `text.dfy` | `str.strip`, `str.lower` on A-Z, `str.split` and `","`-join |
| `models.dfy` | `BankAccount`, `Category`, `Transaction` and their choice sets; `BankAccount.save`, `objects.create`, `Category.input_categories`; the store class |
| `base_importer.dfy` | catalogue seeding, main-account find-or-create, the base row hooks, the category lookup, the transaction find-or-create |
| `n26_importer.dfy` | the N26 hooks and tables, and the `import_transactions` pipeline run with them |
| `import_properties.dfy` | whole-import properties: skipped rows, transfer reuse, re-import, the category lookup's scope |
| `export.dfy` | `Exporter.render_transactions_to_csv` as a list of rows of cells |
| `dispatcher.dfy` | `PARSERS` and `dispatch_import` |
| `forms.dfy` | the import form's account choice, `BankAccountForm.clean`, `SetMainAccountForm` |

Library calls the core makes but does not define are parameters.
`float(text)` and `datetime.strptime(text, "%Y-%m-%d")` are the two partial
functions of `BaseImporter.Library`, where `None` stands for the exception
they raise. `strftime` is a `Date -> string` parameter of the exporter, and
`datetime.now()` is a `now` string. Exceptions are the `Models.Failure`
constructors. An operation that can fail part-way returns an
`Outcome(state, failure)` holding whatever it wrote before the failure,
because nothing in the core runs inside a transaction.

The main results:

- **Idempotent seeding.** After `create_bank_categories` every catalogue
  record is stored exactly once, and a second seeding changes nothing.
- **Re-importing adds nothing.** A second import of the same file adds no
  account, category or transaction and raises nothing. This holds when the
  first import succeeded and the file's transfer rows satisfy
  `ImportProperties.LinksStable`. A two-row file proves that the condition
  is needed.
- **Main-account invariant.** `BankAccount.save` and
  `SetMainAccountForm.save` keep at most one main account per user. The
  form's save leaves the selected account as the user's only main account
  and touches no other user's account.
- **Export layout.** The exported rows come in a fixed order: header, the
  user's accounts, the transactions, then the categories. Every cell of
  every row kind is stated.

## Model

| member | source | states |
|---|---|---|
| Text.Strip | transactionmanager/importers/base_importer.py:53 | the input with its leading and trailing whitespace removed: an infix of the input with only whitespace outside it, neither starting nor ending with whitespace, and empty exactly when the input is all whitespace |
| Text.StripIdempotent | transactionmanager/importers/n26_importer.py:49 | stripping twice is stripping once |
| Text.Lower | transactionmanager/services/dispatcher.py:12 | same length, each character lower-cased |
| Text.Split | transactionmanager/services/export.py:43 | at least one piece, and no piece holds the separator |
| Text.Join | transactionmanager/services/export.py:18-23 | the pieces with the separator between each two (its properties are the next three rows) |
| Text.JoinSeparatorCount | transactionmanager/services/export.py:18-23 | with pieces free of the separator, the joined line holds exactly one separator fewer than there are pieces |
| Text.JoinSplit | transactionmanager/services/export.py:43 | joining the pieces of a split gives the string back |
| Text.SplitJoin | transactionmanager/services/export.py:43 | splitting a comma-joined list whose pieces hold no comma gives the list back |
| Models.Code | transactionmanager/models.py:62-65 | a transaction type is stored as one of "IN", "OUT", "TRSF" |
| Models.Abs | transactionmanager/importers/base_importer.py:101 | the result is never negative and equals the amount or its negation |
| Models.ClearMainFlags | transactionmanager/models.py:25 | same table; only the flag changes, and it is false on every account of the user and unchanged on others |
| Models.Save | transactionmanager/models.py:23-26 | a main account first clears the user's flags; the write fails with IntegrityError exactly when another record holds the IBAN; other users' accounts keep their flags; at most one main account per user and unique IBANs are preserved |
| Models.Create | transactionmanager/models.py:14-15 | the insert succeeds exactly when an IBAN is given and no record holds it; the new record is appended with `main_account` false and empty bank type; both invariants are preserved |
| Models.InputCategories | transactionmanager/models.py:43-45 | exactly the categories whose type is IN |
| Models.Database.SaveAccount | transactionmanager/models.py:23-26 | the store's accounts become `Save`'s result; the other tables are unchanged |
| Models.Database.CreateAccount | transactionmanager/models.py:11-18 | the store's accounts become `Create`'s result, returning the new key or the error |
| BaseImporter.CategoryRecord | transactionmanager/importers/base_importer.py:32-38 | a catalogue entry becomes a category of this bank and user, of type IN exactly when the entry is income |
| BaseImporter.GetOrCreate | transactionmanager/importers/base_importer.py:98-106 | find-or-create keyed on the whole record: fails exactly when the record is stored twice; on success the record is stored once and nothing else changes |
| BaseImporter.SeedCategories | transactionmanager/importers/base_importer.py:31-38 | seeding only appends; it adds only catalogue records; its only error is MultipleObjectsReturned |
| BaseImporter.SeedingFailsOnDuplicate | transactionmanager/importers/base_importer.py:31-38 | seeding fails exactly when some catalogue record is already stored more than once |
| BaseImporter.SeedingStoresOnce | transactionmanager/importers/base_importer.py:31-38 | after successful seeding each catalogue record is stored exactly once |
| BaseImporter.SeedingSeededIsNoop | transactionmanager/importers/base_importer.py:31-38 | seeding a table that holds each catalogue record once changes nothing |
| BaseImporter.SeedingIdempotent | transactionmanager/importers/base_importer.py:28-38 | a second seeding after a successful one changes nothing and raises nothing |
| BaseImporter.GetOrCreateCategory | transactionmanager/importers/base_importer.py:32-38 | the store's categories become `GetOrCreate`'s result; accounts and transactions are unchanged |
| BaseImporter.CreateBankCategories | transactionmanager/importers/base_importer.py:28-38 | the imperative loop leaves exactly `SeedCategories`' state and failure |
| BaseImporter.FirstAccount | transactionmanager/importers/base_importer.py:44 | the lowest key holding the user and IBAN, or None exactly when no account matches |
| BaseImporter.FirstAccountStable | transactionmanager/importers/base_importer.py:44 | appending accounts never changes which one the lookup finds first |
| BaseImporter.MainAccount | transactionmanager/importers/base_importer.py:44-47 | returns the existing account with this user and IBAN; otherwise appends one named after the bank; fails with IntegrityError exactly when there is no IBAN or another user holds it |
| BaseImporter.MainAccountIsFirst | transactionmanager/importers/base_importer.py:44-47 | the returned account is the first match in the resulting table |
| BaseImporter.MainAccountSecondCall | transactionmanager/importers/base_importer.py:44-47 | a later call, even after more accounts are appended, returns the same account and creates nothing |
| BaseImporter.GetOrCreateMainAccount | transactionmanager/importers/base_importer.py:40-47 | the imperative version leaves exactly `MainAccount`'s table and result |
| BaseImporter.Description | transactionmanager/importers/base_importer.py:53-54 | the stripped description field, or "No description" when that field is all whitespace |
| BaseImporter.TransactionType | transactionmanager/importers/base_importer.py:61-63 | IN exactly when the amount is at least 0, OUT exactly when it is negative |
| BaseImporter.IsValidRow | transactionmanager/importers/base_importer.py:119-127 | a row is valid exactly when its amount field exists and `float()` parses it; any failure makes it invalid rather than raising |
| BaseImporter.ReadCsvContent | transactionmanager/importers/base_importer.py:110-117 | the first row is dropped; an empty file is an error |
| BaseImporter.CategoryLookup | transactionmanager/importers/base_importer.py:148 | the ascending keys of exactly the matching categories |
| BaseImporter.ResolveCategory | transactionmanager/importers/base_importer.py:147-150 | fails exactly when two or more categories match; finds the one match; with none, appends an OUT category named `fallback` with icon "category" |
| BaseImporter.GetCategory | transactionmanager/importers/base_importer.py:142-150 | the corrected lookup-or-create, scoped to the importing user (see Findings): it leaves exactly the table and result of `ResolveCategory` with that scope |
| BaseImporter.GetOrCreateTransaction | transactionmanager/importers/base_importer.py:98-106 | the store's transactions become `GetOrCreate`'s result |
| N26Importer.CategoryAlwaysFallback | transactionmanager/importers/n26_importer.py:14 | the N26 field table has no "category" key, so `get_category` always asks for "Altro"; the catalogue holds it once, as an OUT category with icon "category" |
| N26Importer.Description | transactionmanager/importers/n26_importer.py:47-50 | "partner \| ref" when both are present (ref stripped, partner not), else whichever is present, else "" |
| N26Importer.TransactionType | transactionmanager/importers/n26_importer.py:52-57 | TRSF exactly for a "Debit Transfer" with a partner name; otherwise the base sign rule |
| N26Importer.IsValidRow | transactionmanager/importers/base_importer.py:119-127 | the base validity test on the N26 amount column ("Amount (EUR)") |
| N26Importer.Amount | transactionmanager/importers/n26_importer.py:79-80 | on a valid row, the value `float()` reads from the amount column |
| N26Importer.TransferAccount | transactionmanager/importers/n26_importer.py:59-74 | None for a non-transfer; the user's account with the partner IBAN when one exists; otherwise a GENERATED_TRANSFER_ACCOUNT is appended exactly when the partner is the user's full name, and None for any other partner |
| N26Importer.TransferAccountIsFirst | transactionmanager/importers/n26_importer.py:67-74 | a returned transfer account is the first match for the partner IBAN in the resulting table |
| N26Importer.GetTransferAccount | transactionmanager/importers/n26_importer.py:59-74 | the imperative version leaves exactly `TransferAccount`'s table and result |
| N26Importer.ImportedBy | transactionmanager/importers/base_importer.py:94-106 | what a transaction an import added satisfies: a non-negative amount, the user's account with the importer's IBAN, a transfer account of the user when one is linked, and the user's N26 fallback category |
| N26Importer.Grows | transactionmanager/importers/base_importer.py:85-106 | the store only grows, every transaction appended is `ImportedBy` the importer, and unique IBANs and at most one main account per user are kept |
| N26Importer.ImportedByKept | transactionmanager/importers/base_importer.py:98-106 | what holds of a stored transaction still holds once more records are appended |
| N26Importer.ImportRow | transactionmanager/importers/base_importer.py:85-106 | an invalid row changes nothing; a row only appends records, adds at most one transaction, and keeps unique IBANs and at most one main account |
| N26Importer.Store | transactionmanager/importers/base_importer.py:98-106 | the transaction's find-or-create only appends, and what it stores has a non-negative amount, the user's main account and a fallback category |
| N26Importer.RunRows | transactionmanager/importers/base_importer.py:85-106 | the loop stops at the first exception; every appended transaction belongs to the importing user's account |
| N26Importer.Import | transactionmanager/importers/base_importer.py:72-108 | seeding, then the header skip, then the rows; the store only grows and keeps its invariants |
| N26Importer.ImportRowInto | transactionmanager/importers/base_importer.py:86-106 | the imperative loop body leaves exactly `ImportRow`'s state and failure |
| N26Importer.ImportRows | transactionmanager/importers/base_importer.py:85-106 | the imperative loop leaves exactly `RunRows`' state and failure |
| N26Importer.ImportTransactions | transactionmanager/importers/base_importer.py:72-108 | the store ends as `Import` leaves it; the result is the catalogue whenever no exception was raised |
| ImportProperties.ValidRows | transactionmanager/importers/base_importer.py:119-127 | exactly the rows whose amount parses |
| ImportProperties.InvalidRowsSkipped | transactionmanager/importers/base_importer.py:85-87 | importing a file is importing its valid rows alone: invalid rows change nothing and do not stop the loop |
| ImportProperties.TransferAccountReused | transactionmanager/importers/n26_importer.py:67-74 | an account a transfer row resolved to, found or generated, is what every later transfer to that IBAN resolves to, with nothing created |
| ImportProperties.TransferSecondCall | transactionmanager/importers/n26_importer.py:59-74 | repeating a row's transfer lookup on a larger table gives the same answer and creates nothing |
| ImportProperties.SeedingProvidesFallback | transactionmanager/importers/base_importer.py:80 | after the N26 catalogue is seeded the user's "Altro" is present |
| ImportProperties.RowKeepsCategories | transactionmanager/importers/n26_importer.py:82-88 | once "Altro" exists, a row adds no category |
| ImportProperties.RowsKeepCategories | transactionmanager/importers/n26_importer.py:82-88 | once "Altro" exists, no run of rows adds a category |
| ImportProperties.RowKeepsCount | transactionmanager/importers/base_importer.py:98-106 | a stored transaction is never stored again by a row |
| ImportProperties.RowsKeepCount | transactionmanager/importers/base_importer.py:98-106 | a stored transaction is never stored again by a run of rows |
| ImportProperties.RowAddsNoHolder | transactionmanager/importers/n26_importer.py:67-73 | a row creates the user's account for an IBAN only as the main account or for a transfer to that IBAN naming the user |
| ImportProperties.RowsAddNoHolder | transactionmanager/importers/n26_importer.py:67-73 | the same over a run of rows |
| ImportProperties.RowOutcome | transactionmanager/importers/n26_importer.py:67-74 | after a successful row the user holds the importer's IBAN; a transfer left without an account names someone other than the user, at an IBAN other than the main one |
| ImportProperties.LookupsOutcome | transactionmanager/importers/n26_importer.py:59-74 | after a row's account lookups the user holds the importer's IBAN, and a transfer left without an account names someone other than the user at an IBAN other than the main one |
| ImportProperties.RowStored | transactionmanager/importers/base_importer.py:94-106 | a successful row leaves the accounts and category its lookups produced, and its transaction stored once |
| ImportProperties.RowFindsEverything | transactionmanager/importers/base_importer.py:94-106 | a row whose lookups all find stored records, and whose transaction is stored once, changes nothing |
| ImportProperties.RowAbsorbed | transactionmanager/importers/base_importer.py:94-106 | a row imported once is absorbed by any later store that kept its records and gained no account for an IBAN it left unlinked |
| ImportProperties.LinksStable | transactionmanager/importers/n26_importer.py:67-74 | the re-import condition: an earlier transfer row to an IBAN that a later transfer row, naming the user, creates must name the user too |
| ImportProperties.LinksStableSplit | transactionmanager/importers/n26_importer.py:67-74 | the re-import condition holds of every suffix |
| ImportProperties.FirstRowAbsorbed | transactionmanager/importers/base_importer.py:85-106 | the first row of a run changes nothing on the store the whole run produced |
| ImportProperties.NoLaterHolder | transactionmanager/importers/n26_importer.py:67-74 | under the re-import condition, no later row creates the account for a transfer the first row left unlinked |
| ImportProperties.RunAgainIsNoop | transactionmanager/importers/base_importer.py:85-106 | running the same rows over the store they produced changes nothing |
| ImportProperties.ReimportIsNoop | transactionmanager/importers/base_importer.py:72-108 | importing the same file a second time adds nothing and raises nothing, under the re-import condition |
| ImportProperties.ReimportCanRelinkTransfer | transactionmanager/importers/n26_importer.py:67-74 | a two-row file breaking the condition stores two transactions on the first import and a third on the second |
| ImportProperties.UnscopedLookupFailsForSecondUser | transactionmanager/importers/base_importer.py:148 | as written, the fallback lookup raises MultipleObjectsReturned once two users have seeded the catalogue |
| ImportProperties.SeededFallbackIsCatalogued | transactionmanager/importers/base_importer.py:31-38 | after seeding, every category the user-scoped lookup matches is the user's seeded "Altro" |
| ImportProperties.OnlyMatchFound | transactionmanager/importers/base_importer.py:147-148 | when every match is one record stored once, the lookup finds it and creates nothing |
| ImportProperties.ScopedLookupFindsOwnFallback | transactionmanager/importers/base_importer.py:147-150 | scoped to the importing user, the lookup finds that user's own seeded "Altro" whatever other users hold |
| Export.ColumnNames | transactionmanager/services/export.py:18-23 | the header has 28 columns, and each position constant names its column |
| Export.ColumnsHaveNoComma | transactionmanager/services/export.py:18-23 | no column name holds a comma |
| Export.HeaderColumns | transactionmanager/services/export.py:43 | splitting the header line on commas gives the 28 names |
| Export.SossoldiHeader | transactionmanager/services/export.py:18-23 | the 28 column names joined by commas (`HeaderColumns` reads them back) |
| Export.NameCells | transactionmanager/services/export.py:43 | one string cell per name, in order |
| Export.HeaderRow | transactionmanager/services/export.py:43 | one cell per column |
| Export.HeaderRowCells | transactionmanager/services/export.py:43 | each cell of the first row is the matching comma-separated name of the header line |
| Export.AccountRow | transactionmanager/services/export.py:47-77 | 28 cells |
| Export.AccountRowCells | transactionmanager/services/export.py:47-77 | "bankAccount", the key as id and color, the name, "payments", starting value 0.0, active 1, main flag 1 or 0, the time twice, "1" under date, the rest empty |
| Export.TransactionRow | transactionmanager/services/export.py:82-112 | 28 cells |
| Export.TransactionRowHead | transactionmanager/services/export.py:84-95 | "transaction", the key, the account columns empty, the booking date stamped under createdAt, updatedAt and date |
| Export.TransactionRowBody | transactionmanager/services/export.py:96-111 | the absolute amount, the type code, the description, the category key or "", the account key, the transfer key or "", recurring 0, the rest empty |
| Export.CategoryRow | transactionmanager/services/export.py:120-150 | 27 cells, one fewer than the header |
| Export.CategoryRowCells | transactionmanager/services/export.py:117-148 | "categoryTransaction", id 10 + idx, name, icon, idx as color, the time twice, type IN exactly when the name is an income category else OUT, the rest empty |
| Export.OwnAccounts | transactionmanager/services/export.py:46 | the ascending keys of exactly the user's accounts |
| Export.AccountRows | transactionmanager/services/export.py:46-78 | one row per account of the user, in key order |
| Export.TransactionRows | transactionmanager/services/export.py:81-113 | one row per transaction, in the given order |
| Export.CategoryRows | transactionmanager/services/export.py:118-150 | one row per category, numbered from 0 |
| Export.Render | transactionmanager/services/export.py:37-152 | the header row first, then one row per account of the user, per transaction and, when there are any, per category |
| Export.AccountBlock | transactionmanager/services/export.py:43-78 | the header first, then the account rows |
| Export.TransactionBlock | transactionmanager/services/export.py:81-113 | the transaction rows follow the account rows |
| Export.CategoryBlock | transactionmanager/services/export.py:116-150 | the category rows come last, and only when there are categories |
| Export.AccountsOnlyExport | transactionmanager/services/export.py:43-116 | with no transactions and no categories: the header and the account rows only |
| Export.AppendAccountRows | transactionmanager/services/export.py:46-78 | the loop appends exactly `AccountRows` |
| Export.AppendTransactionRows | transactionmanager/services/export.py:81-113 | the loop appends exactly `TransactionRows` |
| Export.AppendCategoryRows | transactionmanager/services/export.py:117-150 | the loop appends exactly `CategoryRows` |
| Export.WriteHeader | transactionmanager/services/export.py:43 | the first row is the header line split on commas |
| Export.RenderTransactionsToCsv | transactionmanager/services/export.py:37-152 | the imperative renderer writes exactly `Render`'s rows |
| Dispatcher.LowerN26 | transactionmanager/services/dispatcher.py:12 | "n26" and "N26" are the only tags that lower-case to "n26" |
| Dispatcher.SelectImporter | transactionmanager/services/dispatcher.py:3-16 | the N26 importer exactly for "n26" in either case; any other tag is an unsupported-format error carrying the lower-cased tag |
| Dispatcher.DispatchImport | transactionmanager/services/dispatcher.py:8-18 | an unknown tag changes nothing; otherwise the result and store are exactly those of the N26 import with the given user, file and IBAN |
| Forms.ImportableAccounts | transactionmanager/forms.py:21-26 | with a user: the ascending keys of exactly that user's accounts whose bank type is a registered choice; without one: none |
| Forms.OnlyN26IsImportable | transactionmanager/forms.py:24-26 | every offered account has bank type "n26" |
| Forms.CleanBankAccount | transactionmanager/forms.py:70-84 | a ValidationError exactly when name, IBAN and bank type are all filled in and the user already has that triple |
| Forms.CleanAccountId | transactionmanager/forms.py:94-99 | the id is kept exactly when it names one of the user's accounts, else a ValidationError |
| Forms.SetMain | transactionmanager/forms.py:101-112 | on success the selected account is the user's only main account; other users' accounts are unchanged; only flags change; DoesNotExist or IntegrityError exactly in their cases; both invariants are preserved |
| Forms.CleanedIdSaves | transactionmanager/forms.py:94-112 | an id the form accepted saves without error while IBANs are unique |
| Forms.SaveMainAccount | transactionmanager/forms.py:101-112 | the store's accounts become `SetMain`'s result; the other tables are unchanged |

## Left out

- ImportProperties.ReimportIsNoop: holds only under `LinksStable`. Suppose a transfer row to an IBAN names a third party, and a later transfer row to the same IBAN names the user. The later row creates the user's account for that IBAN. On re-import the earlier row links to that account, which makes a new transaction (`ImportProperties.ReimportCanRelinkTransfer`).
- Decoding the file as ISO-8859-1 and the `csv` module's tokenising are not modelled. The importer receives the file as rows of string fields.
- `float()` and `strptime` are parameters. Amounts are exact `real`s, so rounding, NaN and infinities are not modelled. The `DecimalField` rounding to two places is not modelled either.
- The exporter's rows are lists of cells. The `csv.writer` text serialisation (quoting, number formatting) is not modelled, and neither are `strftime` and `str()` of a real.
- `Exporter.now()` is called once per timestamp cell in the source. The model uses one `now` value for the whole export.
- The bankAccount row writes "1" under `date` and "" under `countNetWorth` (export.py:59-60), one column off from where "1" evidently belongs. The model keeps the layout as written.
- views.py:170 passes `Category` objects as `in_categories` while export.py:119 tests `cat.name in`, so in the running app every exported category is OUT. The exporter is modelled as written: with a list of names.
- `Text.Lower` maps only A-Z. Python's `str.lower` on other letters is not modelled. A tag other than "n26"/"N26" is rejected either way.
- The base `get_date` reads a `"booking_date"` key missing from the base field table (base_importer.py:140). Only the N26 override is modelled.
- The debug `print(...queryset.first().bank_type)` in `CSVImportForm.__init__` (forms.py:28) is not modelled. It is I/O, and it crashes when the user has no importable account.
- `max_length` limits and Django's form-level `validate_unique` are not modelled. The UNIQUE constraint on `iban` is modelled as `IntegrityError` on write.
- N26Importer.ImportRow: looks the fallback category up among the importing user's own categories, the corrected lookup of the Findings table. As written (base_importer.py:148) the lookup ignores the user and raises MultipleObjectsReturned once two users have seeded the N26 catalogue; `ImportProperties.UnscopedLookupFailsForSecondUser` shows that run.
- N26Importer.Store: runs the corrected, user-scoped category lookup, not the unscoped one of base_importer.py:148 (see Findings).
- N26Importer.RunRows: every row runs the corrected, user-scoped category lookup, not the unscoped one of base_importer.py:148 (see Findings).
- N26Importer.Import: runs the corrected, user-scoped category lookup, so a second user's import succeeds where base_importer.py:148 as written raises MultipleObjectsReturned (see Findings).
- N26Importer.ImportRowInto: runs the corrected, user-scoped category lookup, not the unscoped one of base_importer.py:148 (see Findings).
- N26Importer.ImportRows: runs the corrected, user-scoped category lookup, not the unscoped one of base_importer.py:148 (see Findings).
- N26Importer.ImportTransactions: runs the corrected, user-scoped category lookup, so a second user's import succeeds where base_importer.py:148 as written raises MultipleObjectsReturned (see Findings).
- Dispatcher.DispatchImport: the N26 import it runs uses the corrected, user-scoped category lookup, not the unscoped one of base_importer.py:148 (see Findings).
- BaseImporter.GetCategory: is the corrected lookup, scoped to the importing user. The lookup as written, without the user, is `BaseImporter.ResolveCategory` with scope `None` (see Findings).
- Export.OwnAccounts: lists the user's accounts in primary-key order. `BankAccount.objects.filter(user=...)` at export.py:46 has no `order_by`, so the database may return them in any order.
- Export.AccountRows: writes the account rows in primary-key order, while export.py:46 leaves the order to the database.
- Views, URLs, mixins and the language-model category prediction are not part of this model.

## Findings

| source | as written | input that shows it | evidently intended | confidence | as-written member | corrected member |
|---|---|---|---|---|---|---|
| transactionmanager/importers/base_importer.py:148 | `Category.objects.get(name=name, importer=self.BANK_NAME)` leaves out `created_by`, although seeding creates an "Altro" per user | two users each import an N26 file; the second user's first valid row finds both users' "Altro" and raises MultipleObjectsReturned | look the category up among the importing user's own categories | not executed | ImportProperties.UnscopedLookupFailsForSecondUser | ImportProperties.ScopedLookupFindsOwnFallback |
