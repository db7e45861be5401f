/**
 What each request comes to, said of balances and rows alone: which answer is given when, and what
 is in the tables afterwards.
 */
module Answers {
  import opened Basics
  import opened Messages
  import opened Tables
  import opened Bookkeeping
  import opened Queries

  // ---------------------------------------------------------------- transfers

  /** The request can be carried out: each side exists, the sender can pay, and the identifier is new. */
  ghost predicate Payable(db: Db, sender: Uuid, receiver: Uuid, amount: int, id: Uuid) {
    var b := Balances(db.accounts);
    && amount > 0 && sender != receiver && sender in b && receiver in b
    && amount <= b[sender] && b[receiver] + amount <= I64_MAX && !HasTx(db.ledger, id)
  }

  /** The amount has moved, nothing else has, and one row with the core's clock says so. */
  ghost predicate Moved(before: Db, sender: Uuid, receiver: Uuid, amount: I64, id: Uuid, now: Time, after: Db) {
    var b := Balances(before.accounts);
    && sender in b && receiver in b && sender != receiver
    && Balances(after.accounts) == b[sender := b[sender] - amount][receiver := b[receiver] + amount]
    && OnlyFundsChange(before.accounts, after.accounts)
    && after.ledger == before.ledger + [Transaction(id, now, sender, receiver, amount, 0)]
  }

  /** The first obstacle of a request, by its rank. */
  ghost predicate Obstacle(before: Db, t: Transaction, error: Option<TransactionError>) {
    forall rank :: 0 <= rank < |STOPS| ==>
      (error.Some? && Error(error.value) == STOPS[rank]
       <==> Least(Balances(before.accounts), before.ledger, t, rank))
  }

  /** A payable request is carried out and its receipt states it; any other names its first obstacle. */
  ghost predicate TransferAnswered(
    before: Db, sender: Uuid, receiver: Uuid, amount: I64, env: Env, after: Db, answer: ServerMessage)
  {
    var b := Balances(before.accounts);
    var t := Transaction(env.newId, env.created, sender, receiver, amount, 0);
    && answer.CreateTransactionResponse?
    && (answer.receipt.Ok? <==> Payable(before, sender, receiver, amount, env.newId))
    && (answer.receipt.Ok? ==>
          && Moved(before, sender, receiver, amount, env.newId, env.now, after)
          && answer.receipt.value == Receipt(env.newId, env.now, sender, receiver, b[sender] - amount, 0))
    && (answer.receipt.Err? ==> after == before)
    && Obstacle(before, t, if answer.receipt.Err? then Some(answer.receipt.error) else None)
  }

  lemma PayableMeansNothingFails(db: Db, t: Transaction)
    requires t.fee == 0
    ensures Payable(db, t.sender, t.receiver, t.amount, t.id)
       <==> forall q :: 0 <= q < |STOPS| ==> !Fails(Balances(db.accounts), db.ledger, t, q)
  {
    var b := Balances(db.accounts);
    if forall q :: 0 <= q < |STOPS| ==> !Fails(b, db.ledger, t, q) {
      assert !Fails(b, db.ledger, t, 0) && !Fails(b, db.ledger, t, 1) && !Fails(b, db.ledger, t, 3);
      assert !Fails(b, db.ledger, t, 5) && !Fails(b, db.ledger, t, 6) && !Fails(b, db.ledger, t, 7);
      assert !Fails(b, db.ledger, t, 8) && !Fails(b, db.ledger, t, 9);
    }
  }

  lemma RefusalNamesObstacle(before: Db, t: Transaction, now: Time, after: Db, outcome: Outcome)
    requires TransferMeans(before, t, now, after, outcome) && t.fee == 0
    ensures !outcome.Panicked?
    ensures Obstacle(before, t, if outcome.Refused? then Some(outcome.error) else None)
  {
    var b := Balances(before.accounts);
    assert outcome == Stopped(STOPS[4]) <==> Least(b, before.ledger, t, 4);
    forall rank | 0 <= rank < |STOPS|
      ensures outcome.Refused? && Error(outcome.error) == STOPS[rank] <==> Least(b, before.ledger, t, rank)
    {
      assert outcome == Stopped(STOPS[rank]) <==> Least(b, before.ledger, t, rank);
    }
  }

  lemma PaidIsMoved(before: Db, t: Transaction, now: Time, after: Db)
    requires Paid(before, t, now, after) && t.sender != t.receiver && t.fee == 0
    ensures Moved(before, t.sender, t.receiver, t.amount, t.id, now, after)
  {
    var b := Balances(before.accounts);
    assert Pay(b, t) == b[t.sender := b[t.sender] - t.amount][t.receiver := b[t.receiver] + t.amount];
  }

  /** A dispatched transfer, whoever sends it. */
  lemma TransferRequest(db: Db, sender: Uuid, receiver: Uuid, amount: I64, env: Env)
    requires UniqueIds(db.accounts)
    ensures var done := Respond(db, CreateTransaction(sender, receiver, amount), env);
            && done.message.Some?
            && TransferAnswered(db, sender, receiver, amount, env, done.db, done.message.value)
  {
    var t := Transaction(env.newId, env.created, sender, receiver, amount, 0);
    var done := Transfer(db, t, env.now);
    TransferHasMeaning(db, t, env.now);
    RefusalNamesObstacle(db, t, env.now, done.db, done.outcome);
    PayableMeansNothingFails(db, t);
    if done.outcome.Committed? {
      PaidIsMoved(db, t, env.now, done.db);
    }
  }

  /** Over sound tables no sum leaves 64 bits, so that condition falls away. */
  lemma SoundTablesPay(seeded: bool, db: Db, sender: Uuid, receiver: Uuid, amount: I64, env: Env)
    requires Sound(seeded, db)
    ensures var b := Balances(db.accounts);
            Payable(db, sender, receiver, amount, env.newId) <==> (
              && amount > 0 && sender != receiver && sender in b && receiver in b
              && amount <= b[sender] && !HasTx(db.ledger, env.newId))
  {
    var t := Transaction(env.newId, env.created, sender, receiver, amount, 0);
    OnlyDuplicateIdsFail(seeded, db, sender, receiver, amount, env);
    LeastFailureDecides(db, t, env.now, 8);
  }

  // ---------------------------------------------------------------- accounts

  /** A new account has no coin; it comes into being exactly when its identifier is free. */
  ghost predicate CreationAnswered(before: Db, env: Env, after: Db, answer: ServerMessage) {
    if forall i :: 0 <= i < |before.accounts| ==> before.accounts[i].id != env.newId then
      && after == Db(before.accounts + [Account(env.newId, env.created, 0)], before.ledger)
      && answer == CreateNewAccountResponse(Ok(AccountCreated(env.newId, env.now)))
    else
      after == before && answer == CreateNewAccountResponse(Err(AccountAlreadyExists))
  }

  /** What a start makes of the seed account: 100,000 coin, dated 2000-01-01, if and only if it is not there yet. */
  lemma SeedingRequest(db: Db, storageFails: bool, now: Time)
    ensures var saved := InsertSeed(db, storageFails, now);
            if storageFails then saved == Saved(db, Err(StorageFailed))
            else if exists i :: 0 <= i < |db.accounts| && db.accounts[i].id == SEED_ID then
              saved == Saved(db, Err(AccountAlreadyExists))
            else
              var seed := Account(0x4e9b_616a_f11e_48b6_8c2f_9534_d482_e48e, 946684800, 100000);
              && saved.db == Db(db.accounts + [seed], db.ledger)
              && saved.result == Ok(AccountCreated(SEED_ID, now))
  {
    assert SEED_ID in Ids(db.accounts) <==> exists i :: 0 <= i < |db.accounts| && db.accounts[i].id == SEED_ID;
  }

  // ---------------------------------------------------------------- queries

  /** One row by its identifier: to its parties, refused to others, or not there. */
  ghost predicate RowAnswered(ledger: seq<Transaction>, account: Uuid, id: Uuid, answer: ServerMessage) {
    && answer.GetTransactionResponse?
    && (forall t :: answer.row == Ok(t)
                    <==> t in ledger && t.id == id && (t.sender == account || t.receiver == account))
    && (answer.row == Err(PermissionDenied)
        <==> exists i :: 0 <= i < |ledger| && ledger[i].id == id
                      && account != ledger[i].sender && account != ledger[i].receiver)
    && (answer.row == Err(TransactionDoesNotExist) <==> forall i :: 0 <= i < |ledger| ==> ledger[i].id != id)
  }

  /** The account's rows with a time from `begin` through `end`, each as often as it is stored. */
  ghost predicate HistoryAnswered(
    ledger: seq<Transaction>, account: Uuid, begin: Time, end: Time, answer: ServerMessage)
  {
    && answer.GetTransactionsResponse? && answer.rows.Ok?
    && forall t :: multiset(answer.rows.value)[t]
                   == if (t.sender == account || t.receiver == account) && begin <= t.timestamp <= end
                      then multiset(ledger)[t] else 0
  }

  ghost predicate AccountAnswered(rows: seq<Account>, id: Uuid, answer: ServerMessage) {
    && answer.GetAccountResponse?
    && (forall a :: answer.account == Ok(a) <==> a in rows && a.id == id)
    && (answer.account == Err(AccountDoesNotExist) <==> forall i :: 0 <= i < |rows| ==> rows[i].id != id)
  }

  lemma RowRequest(db: Db, account: Uuid, id: Uuid, env: Env)
    requires UniqueTxIds(db.ledger)
    ensures Respond(db, GetTransaction(account, id), env).message.Some?
    ensures RowAnswered(db.ledger, account, id, Respond(db, GetTransaction(account, id), env).message.value)
  {
    if i :| 0 <= i < |db.ledger| && db.ledger[i].id == id {
      FindTxAt(db.ledger, i);
    }
  }

  lemma HistoryRequest(db: Db, account: Uuid, begin: Time, end: Time, env: Env)
    ensures var answer := Respond(db, GetTransactions(account, begin, end), env).message;
            && answer.Some? && HistoryAnswered(db.ledger, account, begin, end, answer.value)
            && (multiset(env.scan) == multiset(db.ledger) ==>
                  answer.value.rows.value == Select(env.scan, account, begin, end))
  {
    forall t
      ensures multiset(Select(VisitOrder(db.ledger, env.scan), account, begin, end))[t]
           == if (t.sender == account || t.receiver == account) && begin <= t.timestamp <= end
              then multiset(db.ledger)[t] else 0
    {
      SelectCounts(VisitOrder(db.ledger, env.scan), account, begin, end, t);
    }
  }

  lemma AccountRequest(db: Db, id: Uuid, env: Env)
    requires UniqueIds(db.accounts)
    ensures Respond(db, GetAccount(id), env).message.Some?
    ensures AccountAnswered(db.accounts, id, Respond(db, GetAccount(id), env).message.value)
  {
    if i :| 0 <= i < |db.accounts| && db.accounts[i].id == id {
      LookupAt(db.accounts, i);
    }
  }

  /** Every request, and nothing but its answer and its effect. */
  ghost predicate RightAnswer(before: Db, m: ClientMessage, env: Env, after: Db, answer: ServerMessage) {
    match m
    case CreateNewAccount => CreationAnswered(before, env, after, answer)
    case GetAccount(id) => after == before && AccountAnswered(before.accounts, id, answer)
    case GetAccounts => after == before && answer == GetAccountsResponse(Ok(before.accounts))
    case GetTransactions(account, begin, end) =>
      after == before && HistoryAnswered(before.ledger, account, begin, end, answer)
    case GetTransaction(account, id) => after == before && RowAnswered(before.ledger, account, id, answer)
    case CreateTransaction(sender, receiver, amount) =>
      TransferAnswered(before, sender, receiver, amount, env, after, answer)
  }

  /** Dispatch answers every message, and as just said. */
  lemma EveryRequestIsAnswered(db: Db, m: ClientMessage, env: Env)
    requires UniqueIds(db.accounts) && UniqueTxIds(db.ledger)
    ensures var done := Respond(db, m, env);
            done.message.Some? && RightAnswer(db, m, env, done.db, done.message.value)
  {
    match m
    case CreateNewAccount =>
      assert env.newId in Ids(db.accounts)
        <==> exists i :: 0 <= i < |db.accounts| && db.accounts[i].id == env.newId;
    case GetAccount(id) => AccountRequest(db, id, env);
    case GetAccounts =>
    case GetTransactions(account, begin, end) => HistoryRequest(db, account, begin, end, env);
    case GetTransaction(account, id) => RowRequest(db, account, id, env);
    case CreateTransaction(sender, receiver, amount) => TransferRequest(db, sender, receiver, amount, env);
  }
}
