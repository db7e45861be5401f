/** How the two ways of reading the ledger agree, and how often a row is read. */
module Queries {
  import opened Basics
  import opened Messages
  import opened Tables
  import opened Bookkeeping

  predicate Covers(ledger: seq<Transaction>, begin: Time, end: Time) {
    forall i :: 0 <= i < |ledger| ==> begin <= ledger[i].timestamp <= end
  }

  /** Whatever order SQLite visits the rows in, the same rows come back, each as often as it is stored. */
  lemma {:induction false} SelectCounts(
    scan: seq<Transaction>, account: Uuid, begin: Time, end: Time, t: Transaction)
    ensures multiset(Select(scan, account, begin, end))[t]
         == if Selected(t, account, begin, end) then multiset(scan)[t] else 0
  {
    if scan != [] {
      var init, last := scan[..|scan| - 1], scan[|scan| - 1];
      assert scan == init + [last];
      SelectCounts(init, account, begin, end, t);
    }
  }

  lemma SelectIgnoresOrder(a: seq<Transaction>, b: seq<Transaction>, account: Uuid, begin: Time, end: Time)
    requires multiset(a) == multiset(b)
    ensures multiset(Select(a, account, begin, end)) == multiset(Select(b, account, begin, end))
  {
    forall t
      ensures multiset(Select(a, account, begin, end))[t] == multiset(Select(b, account, begin, end))[t]
    {
      SelectCounts(a, account, begin, end, t);
      SelectCounts(b, account, begin, end, t);
    }
  }

  lemma {:induction false} FindTxAt(ledger: seq<Transaction>, i: nat)
    requires UniqueTxIds(ledger) && i < |ledger|
    ensures FindTx(ledger, ledger[i].id) == Some(ledger[i])
  {
  }

  /**
   Looking a transaction up succeeds exactly when the same row is in the account's history over a
   range that covers all timestamps; otherwise the error tells whether the row exists at all.
   */
  lemma QueriesAgree(db: Db, scan: seq<Transaction>, account: Uuid, id: Uuid, begin: Time, end: Time, t: Transaction)
    requires UniqueTxIds(db.ledger) && Covers(db.ledger, begin, end)
    ensures FetchTransaction(db, account, id) == Ok(t)
       <==> t.id == id && t in Select(VisitOrder(db.ledger, scan), account, begin, end)
    ensures FetchTransaction(db, account, id) == Err(TransactionDoesNotExist) <==> !HasTx(db.ledger, id)
    ensures FetchTransaction(db, account, id) == Err(PermissionDenied)
       <==> exists i :: 0 <= i < |db.ledger| && db.ledger[i].id == id && !PartyTo(db.ledger[i], account)
  {
    var rows := Select(VisitOrder(db.ledger, scan), account, begin, end);
    SelectCounts(VisitOrder(db.ledger, scan), account, begin, end, t);
    assert t in rows <==> multiset(rows)[t] > 0;
    assert t in db.ledger <==> multiset(db.ledger)[t] > 0;
    if i :| 0 <= i < |db.ledger| && db.ledger[i].id == id {
      FindTxAt(db.ledger, i);
    }
  }

  /** A row that one party can read stays readable, unchanged, by both parties in every longer ledger. */
  lemma CommittedRowIsShared(db: Db, later: Db, account: Uuid, other: Uuid, id: Uuid, t: Transaction)
    requires UniqueTxIds(later.ledger) && db.ledger <= later.ledger
    requires FetchTransaction(db, account, id) == Ok(t)
    ensures PartyTo(t, other) <==> FetchTransaction(later, other, id) == Ok(t)
  {
  }

  /** The rows come back in the order they are visited in. */
  lemma {:induction false} SelectKeepsOrder(
    a: seq<Transaction>, b: seq<Transaction>, account: Uuid, begin: Time, end: Time)
    ensures Select(a + b, account, begin, end) == Select(a, account, begin, end) + Select(b, account, begin, end)
    decreases |b|
  {
    if b == [] {
      assert a + b == a;
    } else {
      var init, last := b[..|b| - 1], b[|b| - 1];
      SelectKeepsOrder(a, init, account, begin, end);
      assert (a + b)[..|a + b| - 1] == a + init;
    }
  }

  /**
   What the answers to queries mean, on a table with unique keys: the account asked for if it is
   there, all accounts, the account's rows in the time range each once. None of them changes a table.
   */
  lemma QueryAnswers(db: Db, m: ClientMessage, env: Env, a: Account, t: Transaction)
    requires UniqueIds(db.accounts)
    requires !m.CreateNewAccount? && !m.CreateTransaction?
    ensures Respond(db, m, env).db == db && Respond(db, m, env).message.Some?
    ensures var answer := Respond(db, m, env).message.value;
            match m
            case GetAccount(id) =>
              && (answer == GetAccountResponse(Ok(a)) <==> a in db.accounts && a.id == id)
              && (answer == GetAccountResponse(Err(AccountDoesNotExist)) <==> id !in Ids(db.accounts))
            case GetAccounts => answer == GetAccountsResponse(Ok(db.accounts))
            case GetTransactions(account, begin, end) =>
              && answer.GetTransactionsResponse? && answer.rows.Ok?
              && multiset(answer.rows.value)[t]
                 == (if PartyTo(t, account) && begin <= t.timestamp <= end then multiset(db.ledger)[t] else 0)
            case GetTransaction(account, id) =>
              answer == GetTransactionResponse(FetchTransaction(db, account, id))
            case _ => true
  {
    match m
    case GetAccount(id) =>
      if i :| 0 <= i < |db.accounts| && db.accounts[i].id == id {
        LookupAt(db.accounts, i);
      }
      if a in db.accounts {
        var j :| 0 <= j < |db.accounts| && db.accounts[j] == a;
        LookupAt(db.accounts, j);
      }
    case GetTransactions(account, begin, end) =>
      SelectCounts(VisitOrder(db.ledger, env.scan), account, begin, end, t);
    case _ =>
  }

  /** A saved account is loaded as it was saved, all others as before; a taken key changes nothing. */
  lemma SaveThenLoad(db: Db, a: Account, now: Time, other: Uuid)
    requires UniqueIds(db.accounts)
    ensures var saved := SaveAccount(db, a, now);
            && (saved.result.Ok? <==> LoadAccount(db, a.id) == Err(AccountDoesNotExist) && a.funds >= 0)
            && (saved.result.Ok? ==>
                  && saved.result.value == AccountCreated(a.id, now)
                  && LoadAccount(saved.db, a.id) == Ok(a)
                  && (other != a.id ==> LoadAccount(saved.db, other) == LoadAccount(db, other))
                  && saved.db.ledger == db.ledger)
            && (saved.result.Err? ==> saved == Saved(db, Err(AccountAlreadyExists)))
  {
  }

  // ---------------------------------------------------------------- double counting

  /** The lengths of all accounts' histories, added up. */
  function HistoryLengths(rows: seq<Account>, ledger: seq<Transaction>, begin: Time, end: Time): nat {
    if rows == [] then 0
    else
      HistoryLengths(rows[..|rows| - 1], ledger, begin, end)
      + |Select(ledger, rows[|rows| - 1].id, begin, end)|
  }

  function Readers(rows: seq<Account>, t: Transaction): nat {
    if rows == [] then 0
    else Readers(rows[..|rows| - 1], t) + if PartyTo(t, rows[|rows| - 1].id) then 1 else 0
  }

  lemma {:induction false} ReadersAreParties(rows: seq<Account>, t: Transaction)
    requires UniqueIds(rows) && t.sender != t.receiver
    ensures Readers(rows, t)
         == (if t.sender in Ids(rows) then 1 else 0) + (if t.receiver in Ids(rows) then 1 else 0)
  {
    if rows != [] {
      var init, last := rows[..|rows| - 1], rows[|rows| - 1];
      assert rows == init + [last];
      IdsOfAppended(init, last);
      assert last.id !in Ids(init);
      ReadersAreParties(init, t);
    }
  }

  lemma {:induction false} OneMoreRow(
    rows: seq<Account>, ledger: seq<Transaction>, t: Transaction, begin: Time, end: Time)
    requires begin <= t.timestamp <= end
    ensures HistoryLengths(rows, ledger + [t], begin, end)
         == HistoryLengths(rows, ledger, begin, end) + Readers(rows, t)
  {
    if rows != [] {
      OneMoreRow(rows[..|rows| - 1], ledger, t, begin, end);
      assert (ledger + [t])[..|ledger|] == ledger;
    }
  }

  lemma {:induction false} NoHistory(rows: seq<Account>, begin: Time, end: Time)
    ensures HistoryLengths(rows, [], begin, end) == 0
  {
    if rows != [] {
      NoHistory(rows[..|rows| - 1], begin, end);
    }
  }

  /** Each row is in exactly two accounts' histories. */
  lemma {:induction false} HistoriesCountTwice(
    rows: seq<Account>, ledger: seq<Transaction>, begin: Time, end: Time)
    requires UniqueIds(rows) && Covers(ledger, begin, end)
    requires forall i :: 0 <= i < |ledger| ==> RowOk(ledger[i], Ids(rows))
    ensures HistoryLengths(rows, ledger, begin, end) == 2 * |ledger|
    decreases |ledger|
  {
    if ledger == [] {
      NoHistory(rows, begin, end);
    } else {
      var init, last := ledger[..|ledger| - 1], ledger[|ledger| - 1];
      assert ledger == init + [last];
      HistoriesCountTwice(rows, init, begin, end);
      OneMoreRow(rows, init, last, begin, end);
      assert RowOk(last, Ids(rows));
      ReadersAreParties(rows, last);
    }
  }
}
