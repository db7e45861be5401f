/**
 The core's database connection: the requests as they are carried out, statement by statement,
 on the working copy of an open transaction that is then committed or dropped.
 */
module Store {
  import opened Basics
  import opened Messages
  import opened Tables
  import opened Bookkeeping
  import Answers

  /** What the table definitions guarantee of committed rows: keys and CHECKs. */
  ghost predicate ConstraintsHold(db: Db) {
    && UniqueIds(db.accounts)
    && UniqueTxIds(db.ledger)
    && (forall i :: 0 <= i < |db.accounts| ==> 0 <= db.accounts[i].funds <= I64_MAX)
    && (forall i :: 0 <= i < |db.ledger| ==> db.ledger[i].amount > 0 && db.ledger[i].fee >= 0)
  }

  /** UPDATE accounts SET funds = value WHERE account_id = id. */
  function WithFunds(rows: seq<Account>, id: Uuid, value: int): seq<Account> {
    seq(|rows|, i requires 0 <= i < |rows| =>
      if rows[i].id == id then rows[i].(funds := value) else rows[i])
  }

  /** UPDATE accounts SET funds = funds + delta WHERE account_id = id. */
  function WithAdded(rows: seq<Account>, id: Uuid, delta: int): seq<Account> {
    seq(|rows|, i requires 0 <= i < |rows| =>
      if rows[i].id == id then rows[i].(funds := rows[i].funds + delta) else rows[i])
  }

  lemma WithFundsLookup(rows: seq<Account>, id: Uuid, value: int, other: Uuid)
    requires UniqueIds(rows) && other != id
    ensures UniqueIds(WithFunds(rows, id, value))
    ensures Ids(WithFunds(rows, id, value)) == Ids(rows)
    ensures Lookup(WithFunds(rows, id, value), other) == Lookup(rows, other)
  {
    SameIds(WithFunds(rows, id, value), rows);
    if other in Ids(rows) {
      var k :| 0 <= k < |rows| && rows[k].id == other;
      LookupAt(rows, k);
      LookupAt(WithFunds(rows, id, value), k);
    }
  }

  lemma FundsInRange(rows: seq<Account>, id: Uuid)
    requires id in Ids(rows) && forall i :: 0 <= i < |rows| ==> 0 <= rows[i].funds <= I64_MAX
    ensures 0 <= Lookup(rows, id).value.funds <= I64_MAX
  {
  }

  /** The absolute write to the sender followed by the relative one to the receiver moves the amount. */
  lemma DebitThenCredit(rows: seq<Account>, t: Transaction)
    requires UniqueIds(rows) && t.sender in Ids(rows) && t.sender != t.receiver
    ensures WithAdded(
              WithFunds(rows, t.sender, Lookup(rows, t.sender).value.funds - (t.amount + t.fee)),
              t.receiver, t.amount)
         == Credited(rows, t)
  {
  }

  class Connection {
    // committed rows
    var accounts: seq<Account>
    var ledger: seq<Transaction>
    // the working copy of the open transaction
    var open: bool
    var draftAccounts: seq<Account>
    var draftLedger: seq<Transaction>

    ghost predicate Valid()
      reads this
    {
      ConstraintsHold(Committed()) && !open
    }

    ghost function Committed(): Db
      reads this
    {
      Db(accounts, ledger)
    }

    constructor ()
      ensures Valid() && Committed() == Db([], [])
    {
      accounts, ledger, open, draftAccounts, draftLedger := [], [], false, [], [];
    }

    // -------------------------------------------------------------- transactions

    method Begin()
      requires !open
      modifies `open, `draftAccounts, `draftLedger
      ensures open && draftAccounts == accounts && draftLedger == ledger
    {
      open, draftAccounts, draftLedger := true, accounts, ledger;
    }

    method Commit()
      requires open
      modifies this
      ensures !open && Committed() == Db(old(draftAccounts), old(draftLedger))
    {
      accounts, ledger, open := draftAccounts, draftLedger, false;
    }

    /** What dropping an open transaction does, and what recovery after a crash does. */
    method Rollback()
      requires open
      modifies `open
      ensures !open
    {
      open := false;
    }

    // -------------------------------------------------------------- statements

    method SelectFunds(id: Uuid) returns (r: Option<int>)
      requires open
      ensures r.Some? <==> id in Ids(draftAccounts)
      ensures r.Some? ==> r.value == Lookup(draftAccounts, id).value.funds
    {
      match Lookup(draftAccounts, id)
      case Some(a) => r := Some(a.funds);
      case None => r := None;
    }

    /** The number of changed rows, under CHECK (funds >= 0). */
    method SetFunds(id: Uuid, value: I64) returns (r: Result<nat, SqlError>)
      requires open
      modifies `draftAccounts
      ensures r == if id !in Ids(old(draftAccounts)) then Ok(0)
                   else if value < 0 then Err(CheckViolation) else Ok(1)
      ensures draftAccounts == if r == Ok(1) then WithFunds(old(draftAccounts), id, value)
                               else old(draftAccounts)
    {
      if id !in Ids(draftAccounts) { return Ok(0); }
      if value < 0 { return Err(CheckViolation); }
      draftAccounts := WithFunds(draftAccounts, id, value);
      return Ok(1);
    }

    method AddFunds(id: Uuid, delta: I64) returns (r: Result<nat, SqlError>)
      requires open
      modifies `draftAccounts
      ensures var found := Lookup(old(draftAccounts), id);
              r == if found.None? then Ok(0)
                   else if found.value.funds + delta > I64_MAX then Err(IntegerOverflow)
                   else if found.value.funds + delta < 0 then Err(CheckViolation) else Ok(1)
      ensures draftAccounts == if r == Ok(1) then WithAdded(old(draftAccounts), id, delta)
                               else old(draftAccounts)
    {
      var found := Lookup(draftAccounts, id);
      if found.None? { return Ok(0); }
      if found.value.funds + delta > I64_MAX { return Err(IntegerOverflow); }
      if found.value.funds + delta < 0 { return Err(CheckViolation); }
      draftAccounts := WithAdded(draftAccounts, id, delta);
      return Ok(1);
    }

    /** INSERT INTO transactions, under the primary key and the CHECKs on amount and fee. */
    method InsertTransaction(t: Transaction) returns (r: Option<SqlError>)
      requires open
      modifies `draftLedger
      ensures r == if HasTx(old(draftLedger), t.id) then Some(UniqueViolation)
                   else if t.amount <= 0 || t.fee < 0 then Some(CheckViolation) else None
      ensures draftLedger == if r.None? then old(draftLedger) + [t] else old(draftLedger)
    {
      if HasTx(draftLedger, t.id) { return Some(UniqueViolation); }
      if t.amount <= 0 || t.fee < 0 { return Some(CheckViolation); }
      draftLedger := draftLedger + [t];
      return None;
    }

    /** INSERT INTO accounts; either kind of violation is a constraint violation. */
    method InsertAccount(a: Account) returns (r: Option<SqlError>)
      requires open
      modifies `draftAccounts
      ensures r.Some? <==> a.id in Ids(old(draftAccounts)) || a.funds < 0
      ensures draftAccounts == if r.None? then old(draftAccounts) + [a] else old(draftAccounts)
    {
      if a.id in Ids(draftAccounts) { return Some(UniqueViolation); }
      if a.funds < 0 { return Some(CheckViolation); }
      draftAccounts := draftAccounts + [a];
      return None;
    }

    // -------------------------------------------------------------- accounts

    method SaveAccount(a: Account, now: Time) returns (r: Result<AccountCreated, AccountError>)
      requires Valid()
      requires a.funds <= I64_MAX
      modifies this
      ensures Valid()
      ensures Saved(Committed(), r) == Tables.SaveAccount(old(Committed()), a, now)
    {
      Begin();
      var refused := InsertAccount(a);
      if refused.Some? {
        Rollback();
        return Err(AccountAlreadyExists);
      }
      Commit();
      return Ok(AccountCreated(a.id, now));
    }

    method LoadAccount(id: Uuid) returns (r: Result<Account, AccountError>)
      requires Valid()
      ensures r.Ok? <==> id in Ids(accounts)
      ensures r.Ok? ==> r.value in accounts && r.value.id == id
      ensures r == Tables.LoadAccount(Committed(), id)
    {
      match Lookup(accounts, id)
      case Some(a) => r := Ok(a);
      case None => r := Err(AccountDoesNotExist);
    }

    method GetAccounts() returns (rows: seq<Account>)
      requires Valid()
      ensures rows == accounts
    {
      rows := [];
      var cursor := 0;
      while cursor < |accounts|
        invariant 0 <= cursor <= |accounts|
        invariant rows == accounts[..cursor]
      {
        rows := rows + [accounts[cursor]];
        cursor := cursor + 1;
      }
    }

    // -------------------------------------------------------------- transfers

    /** Debit, then credit, in the working copy; the sender's new balance. */
    method MoveFunds(t: Transaction) returns (r: Result<I64, TransactionError>)
      requires open && UniqueIds(draftAccounts)
      requires forall i :: 0 <= i < |draftAccounts| ==> 0 <= draftAccounts[i].funds <= I64_MAX
      requires t.amount > 0 && t.fee == 0 && t.sender != t.receiver
      modifies `draftAccounts
      ensures FundsFailure(old(draftAccounts), t) == if r.Ok? then None else Some(r.error)
      ensures r.Ok? ==> r.value == Lookup(old(draftAccounts), t.sender).value.funds - (t.amount + t.fee)
      ensures r.Ok? ==> draftAccounts == Credited(old(draftAccounts), t)
    {
      ghost var before := draftAccounts;
      var funds := SelectFunds(t.sender);
      if funds.None? { return Err(SenderAccountDoesNotExist); }

      FundsInRange(before, t.sender);
      var deducted: I64 := t.amount + t.fee;
      var left: I64 := funds.value - deducted;
      if left < 0 { return Err(SenderAccountNotEnoughFunds); }

      var debited := SetFunds(t.sender, left);
      match debited {
        case Ok(n) => if n == 0 { return Err(SenderAccountDoesNotExist); }
        case Err(e) => return Err(SQLError(e));
      }
      WithFundsLookup(before, t.sender, left, t.receiver);
      if t.receiver in Ids(before) { FundsInRange(before, t.receiver); }

      var credited := AddFunds(t.receiver, t.amount);
      match credited {
        case Ok(n) => if n == 0 { return Err(ReceiverAccountDoesNotExist); }
        case Err(e) => return Err(SQLError(e));
      }
      DebitThenCredit(before, t);
      return Ok(left);
    }

    /** The statements inside the exclusive transaction; the caller commits or drops it. */
    method TransferStatements(t: Transaction, now: Time) returns (r: Result<Receipt, TransactionError>)
      requires open && UniqueIds(draftAccounts)
      requires forall i :: 0 <= i < |draftAccounts| ==> 0 <= draftAccounts[i].funds <= I64_MAX
      requires t.amount > 0 && t.fee == 0 && t.sender != t.receiver
      modifies `draftAccounts, `draftLedger
      ensures FirstFailure(old(Db(draftAccounts, draftLedger)), t)
           == if r.Ok? then None else Some(Error(r.error))
      ensures r.Ok? ==> (
                Transferred(Db(draftAccounts, draftLedger), Outcome.Committed(r.value))
                == Transfer(old(Db(draftAccounts, draftLedger)), t, now))
    {
      ghost var before := Db(draftAccounts, draftLedger);
      var moved := MoveFunds(t);
      if moved.Err? { return Err(moved.error); }
      var clash := InsertTransaction(t.(timestamp := now));
      if clash.Some? { return Err(SQLError(clash.value)); }
      assert FirstFailure(before, t).None?;
      return Ok(Receipt(t.id, now, t.sender, t.receiver, moved.value, t.fee));
    }

    /**
     The process dies inside an open transfer, after `done` of its statements: whatever they wrote was
     written in the working copy, and recovery finds the tables as they were.
     */
    method CrashInTransfer(t: Transaction, now: Time, done: nat)
      requires Valid()
      requires t.amount > 0 && t.fee == 0 && t.sender != t.receiver
      modifies `open, `draftAccounts, `draftLedger
      ensures Valid() && Committed() == old(Committed())
    {
      Begin();
      if done >= 1 {
        var funds := SelectFunds(t.sender);
        if funds.Some? && funds.value >= t.amount && done >= 2 {
          FundsInRange(draftAccounts, t.sender);
          var debited := SetFunds(t.sender, funds.value - (t.amount + t.fee));
          if done >= 3 {
            var credited := AddFunds(t.receiver, t.amount);
            if credited == Ok(1) && done >= 4 {
              var clash := InsertTransaction(t.(timestamp := now));
            }
          }
        }
      }
      Rollback();
    }

    /**
     save_transaction. Every early return drops the open transaction, so a refused transfer leaves
     both tables as they were even after the sender was debited in the working copy.
     */
    method SaveTransaction(t: Transaction, now: Time) returns (r: Outcome)
      requires Valid()
      modifies this
      ensures Valid()
      ensures Transferred(Committed(), r) == Transfer(old(Committed()), t, now)
      ensures TransferMeans(old(Committed()), t, now, Committed(), r)
    {
      TransferHasMeaning(Committed(), t, now);
      if t.amount == 0 { return Refused(AmountIsZero); }
      if t.amount < 0 { return Refused(AmountIsNegative); }
      if t.fee < 0 { return Refused(FeeIsNegative); }
      if t.sender == t.receiver { return Refused(SenderReceiverAreTheSame); }
      if t.fee != 0 { return Panicked; }

      Begin();
      var done := TransferStatements(t, now);
      match done {
        case Err(e) =>
          Rollback();
          return Refused(e);
        case Ok(receipt) =>
          TransferKeepsConstraints(old(Committed()), t, now);
          Commit();
          return Outcome.Committed(receipt);
      }
    }

    // -------------------------------------------------------------- queries

    method GetTransactions(account: Uuid, begin: Time, end: Time, scan: seq<Transaction>)
      returns (rows: seq<Transaction>)
      requires Valid()
      ensures rows == Select(VisitOrder(ledger, scan), account, begin, end)
    {
      rows := [];
      var visited := VisitOrder(ledger, scan);
      var cursor := 0;
      while cursor < |visited|
        invariant 0 <= cursor <= |visited|
        invariant rows == Select(visited[..cursor], account, begin, end)
      {
        assert visited[..cursor + 1][..cursor] == visited[..cursor];
        if Selected(visited[cursor], account, begin, end) {
          rows := rows + [visited[cursor]];
        }
        cursor := cursor + 1;
      }
      assert visited[..cursor] == visited;
    }

    method GetTransaction(account: Uuid, id: Uuid) returns (r: Result<Transaction, TransactionError>)
      requires Valid()
      ensures r == FetchTransaction(Committed(), account, id)
    {
      var found := FindTx(ledger, id);
      if found.None? { return Err(TransactionDoesNotExist); }
      if found.value.sender == account || found.value.receiver == account { return Ok(found.value); }
      return Err(PermissionDenied);
    }
  }

  lemma TransferKeepsConstraints(db: Db, t: Transaction, now: Time)
    requires ConstraintsHold(db)
    ensures ConstraintsHold(Transfer(db, t, now).db)
  {
    if FirstFailure(db, t).None? {
      forall i | 0 <= i < |db.accounts|
        ensures 0 <= Credited(db.accounts, t)[i].funds <= I64_MAX
      {
        LookupAt(db.accounts, i);
      }
    }
  }

  /**
   The part of the core's main that runs on every start: insert the seed, report what went wrong, and
   go on either way. `storageFails`: the insert meets an error other than a violated constraint.
   */
  method SeedOnStart(con: Connection, storageFails: bool, now: Time) returns (r: Result<AccountCreated, AccountError>)
    requires con.Valid()
    modifies con
    ensures con.Valid()
    ensures Saved(con.Committed(), r) == InsertSeed(old(con.Committed()), storageFails, now)
  {
    if storageFails {
      con.Begin();
      con.Rollback();
      return Err(StorageFailed);
    }
    r := con.SaveAccount(SeedAccount(), now);
  }

  /** message_dispatch: no reply at all when the handler panicked. */
  method MessageDispatch(con: Connection, packet: ClientPacket, env: Env) returns (reply: Option<ServerPacket>)
    requires con.Valid()
    modifies con
    ensures con.Valid()
    ensures con.Committed() == Respond(old(con.Committed()), packet.message, env).db
    ensures reply == match Respond(old(con.Committed()), packet.message, env).message
                     case Some(m) => Some(AsRespFor(m, packet))
                     case None => None
    ensures reply.Some? && reply.value.v == 1 && reply.value.id == packet.id
    ensures Answers.RightAnswer(
              old(con.Committed()), packet.message, env, con.Committed(), reply.value.message)
  {
    Answers.EveryRequestIsAnswered(con.Committed(), packet.message, env);
    var m: ServerMessage;
    match packet.message {
      case CreateNewAccount =>
        var created := con.SaveAccount(Account(env.newId, env.created, 0), env.now);
        m := CreateNewAccountResponse(created);
      case GetAccount(id) =>
        var loaded := con.LoadAccount(id);
        m := GetAccountResponse(loaded);
      case GetAccounts =>
        var rows := con.GetAccounts();
        m := GetAccountsResponse(Ok(rows));
      case GetTransactions(account, begin, end) =>
        var rows := con.GetTransactions(account, begin, end, env.scan);
        m := GetTransactionsResponse(Ok(rows));
      case GetTransaction(account, id) =>
        var row := con.GetTransaction(account, id);
        m := GetTransactionResponse(row);
      case CreateTransaction(sender, receiver, amount) =>
        var outcome := con.SaveTransaction(
          Transaction(env.newId, env.created, sender, receiver, amount, 0), env.now);
        match outcome {
          case Committed(receipt) => m := CreateTransactionResponse(Ok(receipt));
          case Refused(e) => m := CreateTransactionResponse(Err(e));
          case Panicked => return None;
        }
    }
    return Some(AsRespFor(m, packet));
  }
}
