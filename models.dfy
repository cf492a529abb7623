/**
 * The persisted entities (models.py) and the in-memory store that stands in
 * for the database. A record's primary key is its position in its table:
 * the core never deletes a record, so positions are stable.
 */
module Models {
  import opened Wrappers

  type UserId = nat

  /** The authenticated user; the core reads only its id and its names. */
  datatype User = User(id: UserId, firstName: string, lastName: string)

  /** `f"{user.first_name} {user.last_name}"` */
  function FullName(u: User): string {
    u.firstName + " " + u.lastName
  }

  /** The choices of `Transaction.txn_type`. */
  datatype TxnType = IN | OUT | TRSF

  /** The choices of `Category.txn_type`: a category is income or expense, never a transfer. */
  type CategoryType = t: TxnType | t != TRSF witness IN

  /** The code stored in the database and written to the export. */
  function Code(t: TxnType): (s: string)
    ensures s in {"IN", "OUT", "TRSF"}
  {
    match t
    case IN => "IN"
    case OUT => "OUT"
    case TRSF => "TRSF"
  }

  /** The only bank format offered to users: value "n26", label "N26". */
  const BANK_CHOICES: seq<(string, string)> := [("n26", "N26")]

  datatype BankAccount = BankAccount(user: UserId, name: string, iban: string, mainAccount: bool, bankType: string)

  datatype Category = Category(name: string, icon: string, txnType: CategoryType, importer: string, createdBy: UserId)

  /** A parsed calendar date; its textual forms are produced by library code outside the model. */
  datatype Date = Date(year: int, month: int, day: int)

  /** `account`, `transfer` and `category` are primary keys into the store's tables. */
  datatype Transaction = Transaction(
    account: nat,
    transfer: Option<nat>,
    category: Option<nat>,
    date: Date,
    amount: real,
    txnType: TxnType,
    description: string)

  /** `abs(amount)`: the size of an amount, whatever its sign. */
  function Abs(x: real): (r: real)
    ensures r >= 0.0 && (r == x || r == -x)
  {
    if x >= 0.0 then x else -x
  }

  /** The exceptions the core raises or lets through. */
  datatype Failure =
    | IntegrityError           // a NOT NULL or UNIQUE constraint of the database
    | DoesNotExist             // `objects.get` found nothing
    | MultipleObjectsReturned  // `objects.get` found more than one record
    | InvalidDate(text: string)
    | NoHeaderRow              // `next(reader)` on an empty file
    | ValidationError(message: string)
    | UnsupportedBankFormat(format: string)

  /** The state reached by an operation, and the exception that stopped it, if any. Nothing is rolled back. */
  datatype Outcome<S> = Outcome(state: S, failure: Option<Failure>)

  /** The three tables. */
  datatype Db = Db(accounts: seq<BankAccount>, categories: seq<Category>, transactions: seq<Transaction>)

  /** The invariant the main-account flag is meant to keep: no user has two main accounts. */
  ghost predicate AtMostOneMain(accs: seq<BankAccount>) {
    forall i, j :: 0 <= i < |accs| && 0 <= j < |accs| && i != j && accs[i].user == accs[j].user && accs[i].mainAccount
      ==> !accs[j].mainAccount
  }

  /** The UNIQUE constraint on `BankAccount.iban`. */
  ghost predicate UniqueIbans(accs: seq<BankAccount>) {
    forall i, j :: 0 <= i < |accs| && 0 <= j < |accs| && i != j ==> accs[i].iban != accs[j].iban
  }

  /** Whether a record other than `except` already holds `iban`. */
  predicate IbanTaken(accs: seq<BankAccount>, iban: string, except: Option<nat>) {
    exists j :: 0 <= j < |accs| && Some(j) != except && accs[j].iban == iban
  }

  /** `BankAccount.objects.filter(user=user).update(main_account=False)` */
  function ClearMainFlags(accs: seq<BankAccount>, user: UserId): (r: seq<BankAccount>)
    ensures |r| == |accs|
    ensures forall i :: 0 <= i < |accs| ==>
      r[i].(mainAccount := accs[i].mainAccount) == accs[i] &&
      r[i].mainAccount == (accs[i].mainAccount && accs[i].user != user)
  {
    seq(|accs|, i requires 0 <= i < |accs| =>
      if accs[i].user == user then accs[i].(mainAccount := false) else accs[i])
  }

  /**
   * `BankAccount.save`: a main account first clears the flag on every account
   * of its user, then the record is inserted (`pk` None) or overwritten.
   * The clearing is not undone when the write breaks the IBAN constraint.
   */
  function Save(accs: seq<BankAccount>, pk: Option<nat>, acc: BankAccount): (o: Outcome<seq<BankAccount>>)
    requires pk.Some? ==> pk.value < |accs|
    ensures o.failure.Some? <==> IbanTaken(accs, acc.iban, pk)
    ensures o.failure.Some? ==> o.failure == Some(IntegrityError)
    ensures |o.state| == if pk.None? && o.failure.None? then |accs| + 1 else |accs|
    ensures o.failure.None? ==> o.state[if pk.Some? then pk.value else |accs|] == acc
    ensures forall i :: 0 <= i < |accs| && (Some(i) != pk || o.failure.Some?) ==>
      o.state[i].(mainAccount := accs[i].mainAccount) == accs[i] &&
      o.state[i].mainAccount == (accs[i].mainAccount && !(acc.mainAccount && accs[i].user == acc.user))
    ensures AtMostOneMain(accs) ==> AtMostOneMain(o.state)
    ensures UniqueIbans(accs) ==> UniqueIbans(o.state)
  {
    var cleared := if acc.mainAccount then ClearMainFlags(accs, acc.user) else accs;
    assert forall j :: 0 <= j < |accs| ==> cleared[j].iban == accs[j].iban;
    if IbanTaken(cleared, acc.iban, pk) then
      Outcome(cleared, Some(IntegrityError))
    else if pk.None? then
      Outcome(cleared + [acc], None)
    else
      Outcome(cleared[pk.value := acc], None)
  }

  /** `BankAccount.objects.create(user=..., iban=..., name=...)`: `main_account` and `bank_type` take their defaults. */
  function Create(accs: seq<BankAccount>, user: UserId, iban: Option<string>, name: string): (r: Result<(seq<BankAccount>, nat), Failure>)
    ensures r.Ok? <==> iban.Some? && !IbanTaken(accs, iban.value, None)
    ensures r.Err? ==> r.error == IntegrityError
    ensures r.Ok? ==> r.value.1 == |accs| && r.value.0 == accs + [BankAccount(user, name, iban.value, false, "")]
    ensures r.Ok? && UniqueIbans(accs) ==> UniqueIbans(r.value.0)
    ensures r.Ok? && AtMostOneMain(accs) ==> AtMostOneMain(r.value.0)
  {
    if iban.None? then Err(IntegrityError)
    else
      var o := Save(accs, None, BankAccount(user, name, iban.value, false, ""));
      if o.failure.Some? then Err(o.failure.value) else Ok((o.state, |accs|))
  }

  /** `Category.input_categories()`: the categories whose type is income, in store order. */
  function InputCategories(cats: seq<Category>): (r: seq<Category>)
    ensures |r| <= |cats|
    ensures forall c :: c in r <==> c in cats && c.txnType == IN
  {
    if cats == [] then []
    else if cats[0].txnType == IN then [cats[0]] + InputCategories(cats[1..])
    else InputCategories(cats[1..])
  }

  /** The database. */
  class Database {
    var accounts: seq<BankAccount>
    var categories: seq<Category>
    var transactions: seq<Transaction>

    constructor ()
      ensures accounts == [] && categories == [] && transactions == []
    {
      accounts, categories, transactions := [], [], [];
    }

    function State(): Db
      reads this
    {
      Db(accounts, categories, transactions)
    }

    /** `account.save()` for an account with primary key `pk` (None: not yet stored). */
    method SaveAccount(pk: Option<nat>, acc: BankAccount) returns (failure: Option<Failure>)
      requires pk.Some? ==> pk.value < |accounts|
      modifies this
      ensures var o := Save(old(accounts), pk, acc); accounts == o.state && failure == o.failure
      ensures categories == old(categories) && transactions == old(transactions)
    {
      if acc.mainAccount {
        accounts := ClearMainFlags(accounts, acc.user);
      }
      if IbanTaken(accounts, acc.iban, pk) {
        return Some(IntegrityError);
      }
      if pk.None? {
        accounts := accounts + [acc];
      } else {
        accounts := accounts[pk.value := acc];
      }
      failure := None;
    }

    /** `BankAccount.objects.create(user=user, iban=iban, name=name)`, returning the new primary key. */
    method CreateAccount(user: UserId, iban: Option<string>, name: string) returns (r: Result<nat, Failure>)
      modifies this
      ensures var c := Create(old(accounts), user, iban, name);
        match c
        case Ok(v) => accounts == v.0 && r == Ok(v.1)
        case Err(e) => accounts == old(accounts) && r == Err(e)
      ensures categories == old(categories) && transactions == old(transactions)
    {
      if iban.None? {
        return Err(IntegrityError);
      }
      var pk := |accounts|;
      var failure := SaveAccount(None, BankAccount(user, name, iban.value, false, ""));
      if failure.Some? {
        return Err(failure.value);
      }
      r := Ok(pk);
    }
  }
}
