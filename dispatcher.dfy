/**
 * The importer registry (services/dispatcher.py): a bank format tag,
 * compared without regard to letter case, selects the importer that runs.
 */
module Dispatcher {
  import opened Wrappers
  import opened Text
  import opened Models
  import BaseImporter
  import N26Importer

  /** The importer classes the registry can name. */
  datatype Parser = N26Parser

  /** `PARSERS`: lower-case format tag to importer. */
  const PARSERS: map<string, Parser> := map["n26" := N26Parser]

  /** The spellings that lower-case to "n26". */
  lemma LowerN26(s: string)
    ensures Lower(s) == "n26" <==> |s| == 3 && s[0] in {'n', 'N'} && s[1] == '2' && s[2] == '6'
  {
    if |s| == 3 && s[0] in {'n', 'N'} && s[1] == '2' && s[2] == '6' {
      assert Lower(s) == "n26";
    }
  }

  /**
   * The importer for a format tag after `bank_format.lower()`; an unknown tag
   * is a `ValueError` whose message carries the lower-cased tag. The only tag
   * accepted is "n26" in either case of its letter.
   */
  function SelectImporter(bankFormat: string): (r: Result<Parser, Failure>)
    ensures r.Ok? <==> |bankFormat| == 3 && bankFormat[0] in {'n', 'N'} && bankFormat[1] == '2' && bankFormat[2] == '6'
    ensures r.Ok? ==> r.value == N26Parser
    ensures r.Err? ==> r.error == UnsupportedBankFormat(Lower(bankFormat))
  {
    LowerN26(bankFormat);
    var format := Lower(bankFormat);
    if format in PARSERS then Ok(PARSERS[format]) else Err(UnsupportedBankFormat(format))
  }

  /** `dispatch_import`: select the importer, then run its `import_transactions`. */
  method DispatchImport(db: Database, user: User, file: seq<BaseImporter.Row>, bankFormat: string, iban: Option<string>,
                        lib: BaseImporter.Library)
    returns (r: Result<seq<BaseImporter.CategorySpec>, Failure>)
    modifies db
    ensures SelectImporter(bankFormat).Err? ==>
      r == Err(UnsupportedBankFormat(Lower(bankFormat))) && db.State() == old(db.State())
    ensures SelectImporter(bankFormat).Ok? ==>
      var o := N26Importer.Import(old(db.State()), BaseImporter.Importer(user, file, iban), lib);
      db.State() == o.state && r == if o.failure.None? then Ok(N26Importer.CATEGORIES) else Err(o.failure.value)
  {
    var parser := SelectImporter(bankFormat);
    if parser.Err? {
      return Err(parser.error);
    }
    match parser.value
    case N26Parser =>
      r := N26Importer.ImportTransactions(db, BaseImporter.Importer(user, file, iban), lib);
  }
}
