/**
 The two tables of the core database as values, and the reference meaning of every request:
 what a transfer, an account creation or a query does to the rows, with no working copy and
 no statement order.
 */
module Tables {
  import opened Basics
  import opened Messages

  datatype Db = Db(accounts: seq<Account>, ledger: seq<Transaction>)

  // ---------------------------------------------------------------- accounts

  predicate UniqueIds(rows: seq<Account>) {
    forall i, j :: 0 <= i < j < |rows| ==> rows[i].id != rows[j].id
  }

  function Ids(rows: seq<Account>): set<Uuid> {
    set i | 0 <= i < |rows| :: rows[i].id
  }

  function Lookup(rows: seq<Account>, id: Uuid): (r: Option<Account>)
    ensures r.Some? <==> id in Ids(rows)
    ensures r.Some? ==> r.value in rows && r.value.id == id
  {
    assert id in Ids(rows) ==> rows[|rows| - 1].id == id || id in Ids(rows[..|rows| - 1]);
    if rows == [] then None
    else if rows[|rows| - 1].id == id then Some(rows[|rows| - 1])
    else Lookup(rows[..|rows| - 1], id)
  }

  // ---------------------------------------------------------------- transfers

  /** What one committed row does to the balance of `id`. */
  function Delta(t: Transaction, id: Uuid): int {
    (if id == t.receiver then t.amount else 0) - (if id == t.sender then t.amount + t.fee else 0)
  }

  /** Every row of the accounts table after `t`, all rows changed at once. */
  function Credited(rows: seq<Account>, t: Transaction): seq<Account> {
    seq(|rows|, i requires 0 <= i < |rows| => rows[i].(funds := rows[i].funds + Delta(t, rows[i].id)))
  }

  predicate HasTx(ledger: seq<Transaction>, id: Uuid) {
    exists i :: 0 <= i < |ledger| && ledger[i].id == id
  }

  predicate UniqueTxIds(ledger: seq<Transaction>) {
    forall i, j :: 0 <= i < j < |ledger| ==> ledger[i].id != ledger[j].id
  }

  /** The reasons a transfer stops: an error returned to the caller, or the assertion on fees. */
  datatype Stop = Error(error: TransactionError) | FeeAssertion

  /** The conditions on the two balances, in the order in which they are examined. */
  function FundsFailure(rows: seq<Account>, t: Transaction): (r: Option<TransactionError>)
    ensures r.None? ==> t.sender in Ids(rows) && t.receiver in Ids(rows)
  {
    if Lookup(rows, t.sender).None? then Some(SenderAccountDoesNotExist)
    else if Lookup(rows, t.sender).value.funds < t.amount + t.fee then Some(SenderAccountNotEnoughFunds)
    else if Lookup(rows, t.receiver).None? then Some(ReceiverAccountDoesNotExist)
    else if Lookup(rows, t.receiver).value.funds + t.amount > I64_MAX then Some(SQLError(IntegerOverflow))
    else None
  }

  /** The first failing condition, in the order in which conditions are examined. */
  function FirstFailure(db: Db, t: Transaction): (r: Option<Stop>)
    ensures r.None? ==>
              && t.amount > 0 && t.fee == 0 && t.sender != t.receiver && !HasTx(db.ledger, t.id)
              && t.sender in Ids(db.accounts) && t.receiver in Ids(db.accounts)
  {
    if t.amount == 0 then Some(Error(AmountIsZero))
    else if t.amount < 0 then Some(Error(AmountIsNegative))
    else if t.fee < 0 then Some(Error(FeeIsNegative))
    else if t.sender == t.receiver then Some(Error(SenderReceiverAreTheSame))
    else if t.fee != 0 then Some(FeeAssertion)
    else if FundsFailure(db.accounts, t).Some? then Some(Error(FundsFailure(db.accounts, t).value))
    else if HasTx(db.ledger, t.id) then Some(Error(SQLError(UniqueViolation)))
    else None
  }

  datatype Outcome = Committed(receipt: Receipt) | Refused(error: TransactionError) | Panicked

  datatype Transferred = Transferred(db: Db, outcome: Outcome)

  /** The reference transfer. `now` is the core's clock, which alone decides the stored timestamp. */
  function Transfer(db: Db, t: Transaction, now: Time): Transferred {
    match FirstFailure(db, t)
    case Some(Error(e)) => Transferred(db, Refused(e))
    case Some(FeeAssertion) => Transferred(db, Panicked)
    case None =>
      var left := Lookup(db.accounts, t.sender).value.funds - (t.amount + t.fee);
      Transferred(
        Db(Credited(db.accounts, t), db.ledger + [t.(timestamp := now)]),
        Committed(Receipt(t.id, now, t.sender, t.receiver, left, t.fee)))
  }

  // ---------------------------------------------------------------- account creation

  datatype Saved = Saved(db: Db, result: Result<AccountCreated, AccountError>)

  /** A violated key and a violated CHECK are both reported as an existing account. */
  function SaveAccount(db: Db, a: Account, now: Time): Saved {
    if a.id in Ids(db.accounts) || a.funds < 0 then Saved(db, Err(AccountAlreadyExists))
    else Saved(db.(accounts := db.accounts + [a]), Ok(AccountCreated(a.id, now)))
  }

  /** Every start of the core inserts the seed account; the database itself may fail (`storageFails`). */
  function InsertSeed(db: Db, storageFails: bool, now: Time): Saved {
    if storageFails then Saved(db, Err(StorageFailed)) else SaveAccount(db, SeedAccount(), now)
  }

  // ---------------------------------------------------------------- queries

  function LoadAccount(db: Db, id: Uuid): Result<Account, AccountError> {
    match Lookup(db.accounts, id)
    case Some(a) => Ok(a)
    case None => Err(AccountDoesNotExist)
  }

  predicate PartyTo(t: Transaction, account: Uuid) {
    t.sender == account || t.receiver == account
  }

  predicate Selected(t: Transaction, account: Uuid, begin: Time, end: Time) {
    PartyTo(t, account) && begin <= t.timestamp <= end
  }

  /** The rows of a scan that belong to the account and lie in the closed time range. */
  function Select(scan: seq<Transaction>, account: Uuid, begin: Time, end: Time): seq<Transaction> {
    if scan == [] then []
    else
      var rest := Select(scan[..|scan| - 1], account, begin, end);
      if Selected(scan[|scan| - 1], account, begin, end) then rest + [scan[|scan| - 1]] else rest
  }

  /** The order in which the rows are visited is SQLite's choice: any permutation of the table. */
  function VisitOrder(ledger: seq<Transaction>, scan: seq<Transaction>): (r: seq<Transaction>)
    ensures multiset(r) == multiset(ledger)
  {
    if multiset(scan) == multiset(ledger) then scan else ledger
  }

  function FindTx(ledger: seq<Transaction>, id: Uuid): (r: Option<Transaction>)
    ensures r.Some? <==> HasTx(ledger, id)
    ensures r.Some? ==> r.value in ledger && r.value.id == id
  {
    if ledger == [] then None
    else if ledger[|ledger| - 1].id == id then Some(ledger[|ledger| - 1])
    else
      var r := FindTx(ledger[..|ledger| - 1], id);
      assert HasTx(ledger, id) ==> HasTx(ledger[..|ledger| - 1], id);
      r
  }

  function FetchTransaction(db: Db, account: Uuid, id: Uuid): Result<Transaction, TransactionError> {
    match FindTx(db.ledger, id)
    case None => Err(TransactionDoesNotExist)
    case Some(t) => if PartyTo(t, account) then Ok(t) else Err(PermissionDenied)
  }

  // ---------------------------------------------------------------- dispatch

  /** Everything a handler draws from outside: random identifiers, clocks, SQLite's visiting order. */
  datatype Env = Env(newId: Uuid, created: Time, now: Time, scan: seq<Transaction>)

  datatype Responded = Responded(db: Db, message: Option<ServerMessage>)

  /** The reaction to a message; no message at all when the process panics. */
  function Respond(db: Db, m: ClientMessage, env: Env): Responded {
    match m
    case CreateNewAccount =>
      var saved := SaveAccount(db, Account(env.newId, env.created, 0), env.now);
      Responded(saved.db, Some(CreateNewAccountResponse(saved.result)))
    case GetAccount(id) => Responded(db, Some(GetAccountResponse(LoadAccount(db, id))))
    case GetAccounts => Responded(db, Some(GetAccountsResponse(Ok(db.accounts))))
    case GetTransactions(account, begin, end) =>
      var rows := Select(VisitOrder(db.ledger, env.scan), account, begin, end);
      Responded(db, Some(GetTransactionsResponse(Ok(rows))))
    case GetTransaction(account, id) =>
      Responded(db, Some(GetTransactionResponse(FetchTransaction(db, account, id))))
    case CreateTransaction(sender, receiver, amount) =>
      var done := Transfer(db, Transaction(env.newId, env.created, sender, receiver, amount, 0), env.now);
      match done.outcome
      case Committed(r) => Responded(done.db, Some(CreateTransactionResponse(Ok(r))))
      case Refused(e) => Responded(done.db, Some(CreateTransactionResponse(Err(e))))
      case Panicked => Responded(done.db, None)
  }
}
