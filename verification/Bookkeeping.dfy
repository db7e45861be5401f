/**
 The arithmetic of the ledger: what its rows explain about balances, one account at a time,
 for whole sets of accounts, and for every prefix.
 */
module Bookkeeping {
  import opened Basics
  import opened Messages
  import opened Tables

  // ---------------------------------------------------------------- one account

  /** Received minus sent (with fees) over the ledger. */
  function Net(ledger: seq<Transaction>, id: Uuid): int {
    if ledger == [] then 0 else Net(ledger[..|ledger| - 1], id) + Delta(ledger[|ledger| - 1], id)
  }

  function Opening(seeded: bool, id: Uuid): int {
    if seeded && id == SEED_ID then SEED_FUNDS else 0
  }

  /** The balance that the rows up to now explain. */
  function Balance(seeded: bool, ledger: seq<Transaction>, id: Uuid): int {
    Opening(seeded, id) + Net(ledger, id)
  }

  // ---------------------------------------------------------------- sets of accounts

  function FundsIn(rows: seq<Account>, s: set<Uuid>): int {
    if rows == [] then 0
    else
      FundsIn(rows[..|rows| - 1], s) + if rows[|rows| - 1].id in s then rows[|rows| - 1].funds else 0
  }

  function Total(rows: seq<Account>): int {
    FundsIn(rows, Ids(rows))
  }

  /** Amounts that cross into `s`. */
  function Inflow(ledger: seq<Transaction>, s: set<Uuid>): int {
    if ledger == [] then 0
    else
      var t := ledger[|ledger| - 1];
      Inflow(ledger[..|ledger| - 1], s) + if t.receiver in s && t.sender !in s then t.amount else 0
  }

  /** Amounts that cross out of `s`. */
  function Outflow(ledger: seq<Transaction>, s: set<Uuid>): int {
    if ledger == [] then 0
    else
      var t := ledger[|ledger| - 1];
      Outflow(ledger[..|ledger| - 1], s) + if t.sender in s && t.receiver !in s then t.amount else 0
  }

  // ---------------------------------------------------------------- well-formed books

  predicate RowOk(t: Transaction, ids: set<Uuid>) {
    t.amount > 0 && t.fee == 0 && t.sender != t.receiver && t.sender in ids && t.receiver in ids
  }

  ghost predicate Explained(rows: seq<Account>, ledger: seq<Transaction>, seeded: bool) {
    forall i :: 0 <= i < |rows| ==> rows[i].funds == Balance(seeded, ledger, rows[i].id)
  }

  /** No account is overdrawn at any moment of the ledger. */
  ghost predicate NeverOverdrawn(ledger: seq<Transaction>, seeded: bool) {
    forall k, id :: 0 <= k <= |ledger| ==> Balance(seeded, ledger[..k], id) >= 0
  }

  /** What holds of the core's tables between any two requests. */
  ghost predicate Sound(seeded: bool, db: Db) {
    && UniqueIds(db.accounts)
    && UniqueTxIds(db.ledger)
    && (seeded ==> SEED_ID in Ids(db.accounts))
    && (!seeded ==> db.ledger == [])
    && (forall i :: 0 <= i < |db.ledger| ==> RowOk(db.ledger[i], Ids(db.accounts)))
    && Explained(db.accounts, db.ledger, seeded)
    && NeverOverdrawn(db.ledger, seeded)
  }

  // ---------------------------------------------------------------- lookups

  lemma {:induction false} LookupAt(rows: seq<Account>, i: nat)
    requires UniqueIds(rows) && i < |rows|
    ensures Lookup(rows, rows[i].id) == Some(rows[i])
  {
  }

  lemma LookupFunds(rows: seq<Account>, ledger: seq<Transaction>, seeded: bool, id: Uuid)
    requires UniqueIds(rows) && Explained(rows, ledger, seeded)
    requires id in Ids(rows)
    ensures Lookup(rows, id).Some? && Lookup(rows, id).value.funds == Balance(seeded, ledger, id)
  {
  }

  lemma CurrentBalance(ledger: seq<Transaction>, seeded: bool, id: Uuid)
    requires NeverOverdrawn(ledger, seeded)
    ensures Balance(seeded, ledger, id) >= 0
  {
    assert ledger[..|ledger|] == ledger;
    assert Balance(seeded, ledger[..|ledger|], id) >= 0;
  }

  lemma MapsAgree<K, V>(a: map<K, V>, b: map<K, V>)
    requires a.Keys == b.Keys && forall k :: k in a ==> a[k] == b[k]
    ensures a == b
  {
  }

  // ---------------------------------------------------------------- conservation and cuts

  /** The balances before any row, account by account. */
  function OpeningRows(rows: seq<Account>, seeded: bool): seq<Account> {
    seq(|rows|, i requires 0 <= i < |rows| => rows[i].(funds := Opening(seeded, rows[i].id)))
  }

  lemma SameIds(a: seq<Account>, b: seq<Account>)
    requires |a| == |b| && forall i :: 0 <= i < |a| ==> a[i].id == b[i].id
    ensures Ids(a) == Ids(b)
  {
  }

  lemma IdsOfAppended(rows: seq<Account>, a: Account)
    ensures Ids(rows + [a]) == Ids(rows) + {a.id}
  {
    var all := rows + [a];
    assert all[|rows|] == a;
    forall id
      ensures id in Ids(rows) ==> id in Ids(all)
    {
      assert id in Ids(rows) ==> exists i :: 0 <= i < |rows| && rows[i].id == id && all[i].id == id;
    }
  }

  /** What one row moves across the boundary of `s`. */
  function Crossing(t: Transaction, s: set<Uuid>): int {
    (if t.receiver in s then t.amount else 0) - (if t.sender in s then t.amount + t.fee else 0)
  }

  lemma CrossingOneMore(t: Transaction, s: set<Uuid>, ids: set<Uuid>, id: Uuid)
    requires id !in ids && t.sender != t.receiver
    ensures Crossing(t, s * (ids + {id})) == Crossing(t, s * ids) + if id in s then Delta(t, id) else 0
  {
  }

  lemma {:induction false} CreditedFunds(rows: seq<Account>, t: Transaction, s: set<Uuid>)
    requires UniqueIds(rows) && t.sender != t.receiver
    ensures FundsIn(Credited(rows, t), s) == FundsIn(rows, s) + Crossing(t, s * Ids(rows))
  {
    if rows != [] {
      var init, last := rows[..|rows| - 1], rows[|rows| - 1];
      CreditedFunds(init, t, s);
      assert rows == init + [last];
      IdsOfAppended(init, last);
      CrossingOneMore(t, s, Ids(init), last.id);
      assert Credited(rows, t)[..|rows| - 1] == Credited(init, t);
    }
  }

  lemma {:induction false} OpeningFunds(rows: seq<Account>, seeded: bool, s: set<Uuid>)
    requires UniqueIds(rows)
    ensures FundsIn(OpeningRows(rows, seeded), s)
         == if seeded && SEED_ID in s && SEED_ID in Ids(rows) then SEED_FUNDS else 0
  {
    if rows != [] {
      var init, last := rows[..|rows| - 1], rows[|rows| - 1];
      OpeningFunds(init, seeded, s);
      assert rows == init + [last];
      IdsOfAppended(init, last);
      assert last.id !in Ids(init);
      assert OpeningRows(rows, seeded)[..|rows| - 1] == OpeningRows(init, seeded);
    }
  }

  /** The rows as they were before the last transfer. */
  function Undone(rows: seq<Account>, t: Transaction): seq<Account> {
    seq(|rows|, i requires 0 <= i < |rows| => rows[i].(funds := rows[i].funds - Delta(t, rows[i].id)))
  }

  lemma UndoLast(rows: seq<Account>, ledger: seq<Transaction>, seeded: bool)
    requires ledger != [] && UniqueIds(rows) && Explained(rows, ledger, seeded)
    ensures var before := Undone(rows, ledger[|ledger| - 1]);
            && UniqueIds(before)
            && Explained(before, ledger[..|ledger| - 1], seeded)
            && Credited(before, ledger[|ledger| - 1]) == rows
            && Ids(before) == Ids(rows)
  {
  }

  /**
   The cut law: the coin held by any set of accounts is its opening coin plus what the ledger
   brought in across the cut minus what it took out.
   */
  lemma {:induction false} CutLaw(rows: seq<Account>, ledger: seq<Transaction>, seeded: bool, s: set<Uuid>)
    requires UniqueIds(rows) && Explained(rows, ledger, seeded)
    requires forall i :: 0 <= i < |ledger| ==> RowOk(ledger[i], Ids(rows))
    ensures FundsIn(rows, s)
         == (if seeded && SEED_ID in s && SEED_ID in Ids(rows) then SEED_FUNDS else 0)
            + Inflow(ledger, s) - Outflow(ledger, s)
    decreases |ledger|
  {
    if ledger == [] {
      assert rows == OpeningRows(rows, seeded);
      OpeningFunds(rows, seeded, s);
    } else {
      var init, t := ledger[..|ledger| - 1], ledger[|ledger| - 1];
      var before := Undone(rows, t);
      UndoLast(rows, ledger, seeded);
      CutLaw(before, init, seeded, s);
      CreditedFunds(before, t, s);
      assert RowOk(t, Ids(rows));
    }
  }

  lemma {:induction false} NothingCrosses(ledger: seq<Transaction>, ids: set<Uuid>)
    requires forall i :: 0 <= i < |ledger| ==> RowOk(ledger[i], ids)
    ensures Inflow(ledger, ids) == 0 && Outflow(ledger, ids) == 0
  {
    if ledger != [] {
      NothingCrosses(ledger[..|ledger| - 1], ids);
      assert RowOk(ledger[|ledger| - 1], ids);
    }
  }

  /** Closed circulation: all coin is the seed's opening coin, however the ledger looks. */
  lemma Conservation(seeded: bool, db: Db)
    requires Sound(seeded, db)
    ensures Total(db.accounts) == if seeded then SEED_FUNDS else 0
  {
    CutLaw(db.accounts, db.ledger, seeded, Ids(db.accounts));
    NothingCrosses(db.ledger, Ids(db.accounts));
  }

  /** Coin outside the seed is what the seed sent minus what came back to it. */
  lemma CoinOutsideSeed(seeded: bool, db: Db)
    requires Sound(seeded, db)
    ensures FundsIn(db.accounts, Ids(db.accounts) - {SEED_ID})
         == Outflow(db.ledger, {SEED_ID}) - Inflow(db.ledger, {SEED_ID})
  {
    var rest := Ids(db.accounts) - {SEED_ID};
    CutLaw(db.accounts, db.ledger, seeded, rest);
    MirroredFlows(db.ledger, Ids(db.accounts), {SEED_ID});
  }

  lemma {:induction false} MirroredFlows(ledger: seq<Transaction>, ids: set<Uuid>, s: set<Uuid>)
    requires forall i :: 0 <= i < |ledger| ==> RowOk(ledger[i], ids)
    ensures Inflow(ledger, ids - s) == Outflow(ledger, s)
    ensures Outflow(ledger, ids - s) == Inflow(ledger, s)
  {
    if ledger != [] {
      MirroredFlows(ledger[..|ledger| - 1], ids, s);
      assert RowOk(ledger[|ledger| - 1], ids);
    }
  }

  lemma {:induction false} NonNegativeSum(rows: seq<Account>, s: set<Uuid>)
    requires forall i :: 0 <= i < |rows| ==> rows[i].funds >= 0
    ensures FundsIn(rows, s) >= 0
    ensures forall i :: 0 <= i < |rows| && rows[i].id in s ==> rows[i].funds <= FundsIn(rows, s)
  {
    if rows != [] {
      NonNegativeSum(rows[..|rows| - 1], s);
    }
  }

  /** Two different accounts together never hold more than everything. */
  lemma {:induction false} PairBound(rows: seq<Account>, s: set<Uuid>, i: nat, j: nat)
    requires forall k :: 0 <= k < |rows| ==> rows[k].funds >= 0
    requires i < |rows| && j < |rows| && i != j && rows[i].id in s && rows[j].id in s
    ensures rows[i].funds + rows[j].funds <= FundsIn(rows, s)
  {
    var init := rows[..|rows| - 1];
    NonNegativeSum(init, s);
    if i < |init| && j < |init| {
      PairBound(init, s, i, j);
    }
  }

  // ---------------------------------------------------------------- replay

  /** One row applied to a table of balances. */
  function Apply(b: map<Uuid, int>, t: Transaction): map<Uuid, int> {
    map id | id in b :: b[id] + Delta(t, id)
  }

  /** The ledger replayed row by row, in order, from a table of opening balances. */
  function Replay(b: map<Uuid, int>, ledger: seq<Transaction>): map<Uuid, int> {
    if ledger == [] then b else Apply(Replay(b, ledger[..|ledger| - 1]), ledger[|ledger| - 1])
  }

  function OpeningBalances(rows: seq<Account>, seeded: bool): map<Uuid, int> {
    map id | id in Ids(rows) :: Opening(seeded, id)
  }

  function Balances(rows: seq<Account>): map<Uuid, int> {
    map id | id in Ids(rows) :: Lookup(rows, id).value.funds
  }

  lemma {:induction false} ReplayIsNet(b: map<Uuid, int>, ledger: seq<Transaction>)
    ensures Replay(b, ledger).Keys == b.Keys
    ensures forall id :: id in b ==> Replay(b, ledger)[id] == b[id] + Net(ledger, id)
  {
    if ledger != [] {
      ReplayIsNet(b, ledger[..|ledger| - 1]);
    }
  }

  /** The accounts table is the ledger replayed. */
  lemma ReplayGivesBalances(seeded: bool, db: Db)
    requires Sound(seeded, db)
    ensures Balances(db.accounts) == Replay(OpeningBalances(db.accounts, seeded), db.ledger)
  {
    var left, right := Balances(db.accounts), Replay(OpeningBalances(db.accounts, seeded), db.ledger);
    ReplayIsNet(OpeningBalances(db.accounts, seeded), db.ledger);
    forall id | id in left
      ensures left[id] == right[id]
    {
      LookupFunds(db.accounts, db.ledger, seeded, id);
    }
    MapsAgree(left, right);
  }

  /** The balance a receipt states is the one the replay gives. */
  lemma {:induction false} BalanceIsReplayed(rows: seq<Account>, seeded: bool, ledger: seq<Transaction>, id: Uuid)
    requires id in Ids(rows)
    ensures id in Replay(OpeningBalances(rows, seeded), ledger)
    ensures Replay(OpeningBalances(rows, seeded), ledger)[id] == Balance(seeded, ledger, id)
  {
    ReplayIsNet(OpeningBalances(rows, seeded), ledger);
  }

  /** Every prefix of the ledger replays to balances of at least zero for every account. */
  lemma PrefixesReplayNonNegative(seeded: bool, db: Db, k: nat, id: Uuid)
    requires Sound(seeded, db)
    requires k <= |db.ledger| && id in Ids(db.accounts)
    ensures id in Replay(OpeningBalances(db.accounts, seeded), db.ledger[..k])
    ensures Replay(OpeningBalances(db.accounts, seeded), db.ledger[..k])[id] >= 0
  {
    ReplayIsNet(OpeningBalances(db.accounts, seeded), db.ledger[..k]);
    assert Balance(seeded, db.ledger[..k], id) >= 0;
  }

  // ---------------------------------------------------------------- order independence

  lemma {:induction false} NetOfConcat(a: seq<Transaction>, b: seq<Transaction>, id: Uuid)
    ensures Net(a + b, id) == Net(a, id) + Net(b, id)
  {
    if b == [] {
      assert a + b == a;
    } else {
      NetOfConcat(a, b[..|b| - 1], id);
      assert (a + b)[..|a + b| - 1] == a + b[..|b| - 1];
    }
  }

  lemma NetWithout(ledger: seq<Transaction>, i: nat, id: Uuid)
    requires i < |ledger|
    ensures Net(ledger, id) == Net(ledger[..i] + ledger[i + 1..], id) + Delta(ledger[i], id)
  {
    var left, mid, right := ledger[..i], [ledger[i]], ledger[i + 1..];
    assert ledger == (left + mid) + right;
    NetOfConcat(left + mid, right, id);
    NetOfConcat(left, mid, id);
    NetOfConcat(left, right, id);
    assert Net(mid, id) == Net(mid[..0], id) + Delta(ledger[i], id);
  }

  lemma Split<T>(s: seq<T>, i: nat)
    requires i < |s|
    ensures multiset(s) == multiset(s[..i] + s[i + 1..]) + multiset{s[i]}
  {
    assert s == s[..i] + [s[i]] + s[i + 1..];
  }

  /** Take the last element of one list away from both. */
  lemma DropLast<T>(a: seq<T>, b: seq<T>) returns (i: nat)
    requires a != [] && multiset(a) == multiset(b)
    ensures i < |b| && b[i] == a[|a| - 1]
    ensures multiset(a[..|a| - 1]) == multiset(b[..i] + b[i + 1..])
  {
    var last := |a| - 1;
    assert a[last] in multiset(b);
    i :| 0 <= i < |b| && b[i] == a[last];
    Split(a, last);
    Split(b, i);
    assert a[..last] + a[last + 1..] == a[..last];
    assert multiset(a) - multiset{a[last]} == multiset(a[..last]);
    assert multiset(b) - multiset{a[last]} == multiset(b[..i] + b[i + 1..]);
  }

  lemma {:induction false} NetOfPermutation(a: seq<Transaction>, b: seq<Transaction>, id: Uuid)
    requires multiset(a) == multiset(b)
    ensures Net(a, id) == Net(b, id)
    decreases |a|
  {
    if a == [] {
      assert |multiset(b)| == 0;
    } else {
      var i := DropLast(a, b);
      NetOfPermutation(a[..|a| - 1], b[..i] + b[i + 1..], id);
      NetWithout(b, i, id);
    }
  }

  /** Every permutation of the ledger replays to the same balances. */
  lemma OrderIndependence(b: map<Uuid, int>, ledger: seq<Transaction>, shuffled: seq<Transaction>)
    requires multiset(ledger) == multiset(shuffled)
    ensures Replay(b, ledger) == Replay(b, shuffled)
  {
    ReplayIsNet(b, ledger);
    ReplayIsNet(b, shuffled);
    forall id | id in b
      ensures Net(ledger, id) == Net(shuffled, id)
    {
      NetOfPermutation(ledger, shuffled, id);
    }
  }

  // ---------------------------------------------------------------- requests keep the books

  lemma {:induction false} NetAppend(ledger: seq<Transaction>, t: Transaction, id: Uuid)
    ensures Net(ledger + [t], id) == Net(ledger, id) + Delta(t, id)
  {
  }

  /** Prefixes of the longer ledger are the old prefixes and the whole. */
  lemma StillNeverOverdrawn(seeded: bool, ledger: seq<Transaction>, t: Transaction)
    requires NeverOverdrawn(ledger, seeded)
    requires t.sender != t.receiver && t.amount >= 0 && t.fee == 0
    requires t.amount <= Balance(seeded, ledger, t.sender)
    ensures NeverOverdrawn(ledger + [t], seeded)
  {
    forall k, id | 0 <= k <= |ledger + [t]|
      ensures Balance(seeded, (ledger + [t])[..k], id) >= 0
    {
      if k <= |ledger| {
        assert (ledger + [t])[..k] == ledger[..k];
      } else {
        assert (ledger + [t])[..k] == ledger + [t];
        assert ledger[..|ledger|] == ledger;
        assert Balance(seeded, ledger[..|ledger|], id) >= 0;
        NetAppend(ledger, t, id);
      }
    }
  }

  lemma CreditedExplained(
    rows: seq<Account>, ledger: seq<Transaction>, seeded: bool, t: Transaction, row: Transaction)
    requires Explained(rows, ledger, seeded) && row == t.(timestamp := row.timestamp)
    ensures Explained(Credited(rows, t), ledger + [row], seeded)
  {
    forall i | 0 <= i < |rows|
      ensures Credited(rows, t)[i].funds == Balance(seeded, ledger + [row], rows[i].id)
    {
      NetAppend(ledger, row, rows[i].id);
    }
  }

  lemma TransferKeepsSound(seeded: bool, db: Db, t: Transaction, now: Time)
    requires Sound(seeded, db)
    ensures Sound(seeded, Transfer(db, t, now).db)
    ensures Ids(Transfer(db, t, now).db.accounts) == Ids(db.accounts)
  {
    if FirstFailure(db, t).None? {
      var row := t.(timestamp := now);
      var after := Transfer(db, t, now).db;
      LookupFunds(db.accounts, db.ledger, seeded, t.sender);
      assert Net([], t.sender) == 0;
      StillNeverOverdrawn(seeded, db.ledger, row);
      SameIds(after.accounts, db.accounts);
      CreditedExplained(db.accounts, db.ledger, seeded, t, row);
    }
  }

  lemma SaveKeepsSound(seeded: bool, db: Db, a: Account, now: Time)
    requires Sound(seeded, db)
    requires a.funds == 0
    ensures Sound(seeded, SaveAccount(db, a, now).db)
    ensures Ids(db.accounts) <= Ids(SaveAccount(db, a, now).db.accounts)
  {
    if a.id !in Ids(db.accounts) {
      var after := SaveAccount(db, a, now).db;
      IdsOfAppended(db.accounts, a);
      forall i | 0 <= i < |db.ledger|
        ensures RowOk(db.ledger[i], Ids(after.accounts))
      {
        assert RowOk(db.ledger[i], Ids(db.accounts));
      }
      StrangersHaveNoRows(db.ledger, Ids(db.accounts), a.id);
      assert Balance(seeded, db.ledger, a.id) == 0;
    }
  }

  lemma {:induction false} StrangersHaveNoRows(ledger: seq<Transaction>, ids: set<Uuid>, id: Uuid)
    requires forall i :: 0 <= i < |ledger| ==> RowOk(ledger[i], ids)
    requires id !in ids
    ensures Net(ledger, id) == 0
  {
    if ledger != [] {
      StrangersHaveNoRows(ledger[..|ledger| - 1], ids, id);
      assert RowOk(ledger[|ledger| - 1], ids);
    }
  }

  /** The seed row enters an unseeded table; nothing has been transferred before that. */
  lemma SeedingIsSound(db: Db, now: Time)
    requires Sound(false, db)
    requires SEED_ID !in Ids(db.accounts)
    ensures Sound(true, SaveAccount(db, SeedAccount(), now).db)
    ensures Ids(SaveAccount(db, SeedAccount(), now).db.accounts) == Ids(db.accounts) + {SEED_ID}
  {
    var after := SaveAccount(db, SeedAccount(), now).db;
    IdsOfAppended(db.accounts, SeedAccount());
  }

  /** A seed row that is already there makes a second seeding fail: restarts never mint. */
  lemma ReseedingNeverMints(db: Db, now: Time)
    requires Sound(true, db)
    ensures SaveAccount(db, SeedAccount(), now) == Saved(db, Err(AccountAlreadyExists))
  {
  }

  lemma RespondKeepsSound(seeded: bool, db: Db, m: ClientMessage, env: Env)
    requires Sound(seeded, db)
    ensures Sound(seeded, Respond(db, m, env).db)
    ensures Ids(db.accounts) <= Ids(Respond(db, m, env).db.accounts)
  {
    if m.CreateNewAccount? {
      SaveKeepsSound(seeded, db, Account(env.newId, env.created, 0), env.now);
    } else if m.CreateTransaction? {
      TransferKeepsSound(seeded, db, Transaction(env.newId, env.created, m.sender, m.receiver, m.amount, 0), env.now);
    } else {
      assert Respond(db, m, env).db == db;
    }
  }

  // ---------------------------------------------------------------- transfers, seen from outside

  /** On balances alone a committed transfer is: sender down by amount and fee, receiver up by amount. */
  function Pay(b: map<Uuid, int>, t: Transaction): map<Uuid, int>
    requires t.sender in b && t.receiver in b
  {
    var debited := b[t.sender := b[t.sender] - (t.amount + t.fee)];
    debited[t.receiver := debited[t.receiver] + t.amount]
  }

  lemma CreditedLookup(rows: seq<Account>, t: Transaction, id: Uuid)
    requires UniqueIds(rows) && id in Ids(rows)
    ensures id in Ids(Credited(rows, t))
    ensures Lookup(Credited(rows, t), id).value.funds == Lookup(rows, id).value.funds + Delta(t, id)
  {
    SameIds(Credited(rows, t), rows);
    var i :| 0 <= i < |rows| && rows[i].id == id;
    LookupAt(rows, i);
    LookupAt(Credited(rows, t), i);
  }

  lemma CommittedTransferIsPayment(db: Db, t: Transaction, now: Time)
    requires UniqueIds(db.accounts) && FirstFailure(db, t).None?
    ensures t.sender in Balances(db.accounts) && t.receiver in Balances(db.accounts)
    ensures Balances(Transfer(db, t, now).db.accounts) == Pay(Balances(db.accounts), t)
    ensures Transfer(db, t, now).db.ledger == db.ledger + [t.(timestamp := now)]
  {
    CreditedBalances(db.accounts, t);
    PayIsApply(Balances(db.accounts), t);
  }

  /**
   A transfer is a payment on balances: it commits exactly when every condition holds, and
   otherwise it changes neither table.
   */
  lemma TransferRefinesPayment(db: Db, t: Transaction, now: Time)
    requires UniqueIds(db.accounts)
    ensures var b := Balances(db.accounts);
            Transfer(db, t, now).outcome.Committed? <==> (
              && t.amount > 0 && t.fee == 0 && t.sender != t.receiver
              && t.sender in b && t.amount <= b[t.sender]
              && t.receiver in b && b[t.receiver] + t.amount <= I64_MAX
              && !HasTx(db.ledger, t.id))
    ensures Transfer(db, t, now).outcome.Committed? ==>
              && t.sender in Balances(db.accounts) && t.receiver in Balances(db.accounts)
              && Balances(Transfer(db, t, now).db.accounts) == Pay(Balances(db.accounts), t)
              && Transfer(db, t, now).db.ledger == db.ledger + [t.(timestamp := now)]
    ensures !Transfer(db, t, now).outcome.Committed? ==> Transfer(db, t, now).db == db
  {
    if FirstFailure(db, t).None? {
      CommittedTransferIsPayment(db, t, now);
    }
  }

  /** The conditions that stop a transfer, each on its own, numbered in the order they are examined. */
  predicate Fails(b: map<Uuid, int>, ledger: seq<Transaction>, t: Transaction, rank: int) {
    match rank
    case 0 => t.amount == 0
    case 1 => t.amount < 0
    case 2 => t.fee < 0
    case 3 => t.sender == t.receiver
    case 4 => t.fee != 0
    case 5 => t.sender !in b
    case 6 => t.sender in b && b[t.sender] < t.amount + t.fee
    case 7 => t.receiver !in b
    case 8 => t.receiver in b && b[t.receiver] + t.amount > I64_MAX
    case 9 => HasTx(ledger, t.id)
    case _ => false
  }

  const STOPS: seq<Stop> := [
    Error(AmountIsZero), Error(AmountIsNegative), Error(FeeIsNegative), Error(SenderReceiverAreTheSame),
    FeeAssertion, Error(SenderAccountDoesNotExist), Error(SenderAccountNotEnoughFunds),
    Error(ReceiverAccountDoesNotExist), Error(SQLError(IntegerOverflow)), Error(SQLError(UniqueViolation))]

  /** The least rank that fails, or the number of ranks. */
  function LeastRank(b: map<Uuid, int>, ledger: seq<Transaction>, t: Transaction, from: nat): (r: nat)
    requires from <= |STOPS|
    ensures from <= r <= |STOPS|
    ensures forall q :: from <= q < r ==> !Fails(b, ledger, t, q)
    ensures r < |STOPS| ==> Fails(b, ledger, t, r)
    decreases |STOPS| - from
  {
    if from == |STOPS| || Fails(b, ledger, t, from) then from else LeastRank(b, ledger, t, from + 1)
  }

  lemma BalanceFailures(db: Db, t: Transaction)
    ensures var b := Balances(db.accounts);
            FundsFailure(db.accounts, t)
            == if Fails(b, db.ledger, t, 5) then Some(SenderAccountDoesNotExist)
               else if Fails(b, db.ledger, t, 6) then Some(SenderAccountNotEnoughFunds)
               else if Fails(b, db.ledger, t, 7) then Some(ReceiverAccountDoesNotExist)
               else if Fails(b, db.ledger, t, 8) then Some(SQLError(IntegerOverflow))
               else None
  {
  }

  lemma StopsAtLeastRank(db: Db, t: Transaction)
    ensures var r := LeastRank(Balances(db.accounts), db.ledger, t, 0);
            FirstFailure(db, t) == if r < |STOPS| then Some(STOPS[r]) else None
  {
    BalanceFailures(db, t);
    var r := LeastRank(Balances(db.accounts), db.ledger, t, 0);
    assert r != 0 ==> t.amount != 0;
    assert r > 1 ==> !Fails(Balances(db.accounts), db.ledger, t, 1);
    assert r > 2 ==> !Fails(Balances(db.accounts), db.ledger, t, 2);
    assert r > 3 ==> !Fails(Balances(db.accounts), db.ledger, t, 3);
    assert r > 4 ==> !Fails(Balances(db.accounts), db.ledger, t, 4);
    assert r > 5 ==> !Fails(Balances(db.accounts), db.ledger, t, 5);
    assert r > 6 ==> !Fails(Balances(db.accounts), db.ledger, t, 6);
    assert r > 7 ==> !Fails(Balances(db.accounts), db.ledger, t, 7);
    assert r > 8 ==> !Fails(Balances(db.accounts), db.ledger, t, 8);
    assert r > 9 ==> !Fails(Balances(db.accounts), db.ledger, t, 9);
  }

  /** The first condition that fails is the one of this rank. */
  predicate Least(b: map<Uuid, int>, ledger: seq<Transaction>, t: Transaction, rank: nat) {
    Fails(b, ledger, t, rank) && forall q :: 0 <= q < rank ==> !Fails(b, ledger, t, q)
  }

  function Stopped(stop: Stop): Outcome {
    match stop
    case Error(e) => Refused(e)
    case FeeAssertion => Panicked
  }

  /** A transfer stops at the condition of least rank that fails, and commits when none does. */
  lemma LeastFailureDecides(db: Db, t: Transaction, now: Time, rank: nat)
    requires rank < |STOPS|
    ensures var b := Balances(db.accounts);
            && (Transfer(db, t, now).outcome == Stopped(STOPS[rank]) <==> Least(b, db.ledger, t, rank))
            && (FirstFailure(db, t) == Some(STOPS[rank]) <==> Least(b, db.ledger, t, rank))
            && (Transfer(db, t, now).outcome.Committed?
                <==> forall q :: 0 <= q < |STOPS| ==> !Fails(b, db.ledger, t, q))
  {
    StopsAtLeastRank(db, t);
  }

  /** Accounts keep their place, identifier and date of creation. */
  ghost predicate OnlyFundsChange(before: seq<Account>, after: seq<Account>) {
    |after| == |before| && forall i :: 0 <= i < |before| ==> after[i] == before[i].(funds := after[i].funds)
  }

  /** The payment on balances, and one row that states it with the core's clock. */
  ghost predicate Paid(before: Db, t: Transaction, now: Time, after: Db) {
    var b := Balances(before.accounts);
    && t.sender in b && t.receiver in b
    && Balances(after.accounts) == Pay(b, t) && OnlyFundsChange(before.accounts, after.accounts)
    && after.ledger == before.ledger + [Transaction(t.id, now, t.sender, t.receiver, t.amount, t.fee)]
  }

  /**
   What a transfer may leave and report, on balances: the payment, one row and a receipt of it when
   no condition fails; otherwise the tables as they were and the first failing condition.
   */
  ghost predicate TransferMeans(before: Db, t: Transaction, now: Time, after: Db, outcome: Outcome) {
    var b := Balances(before.accounts);
    && (forall rank :: 0 <= rank < |STOPS| ==>
          (outcome == Stopped(STOPS[rank]) <==> Least(b, before.ledger, t, rank)))
    && (outcome.Committed? <==> forall q :: 0 <= q < |STOPS| ==> !Fails(b, before.ledger, t, q))
    && (!outcome.Committed? ==> after == before)
    && (outcome.Committed? ==>
          && Paid(before, t, now, after)
          && outcome.receipt
             == Receipt(t.id, now, t.sender, t.receiver, b[t.sender] - (t.amount + t.fee), t.fee))
  }

  lemma TransferHasMeaning(db: Db, t: Transaction, now: Time)
    requires UniqueIds(db.accounts)
    ensures var done := Transfer(db, t, now); TransferMeans(db, t, now, done.db, done.outcome)
  {
    forall rank | 0 <= rank < |STOPS|
      ensures Transfer(db, t, now).outcome == Stopped(STOPS[rank]) <==> Least(Balances(db.accounts), db.ledger, t, rank)
    {
      LeastFailureDecides(db, t, now, rank);
    }
    LeastFailureDecides(db, t, now, 0);
    TransferRefinesPayment(db, t, now);
    if FirstFailure(db, t).None? {
      assert Transfer(db, t, now).db.accounts == Credited(db.accounts, t);
    }
  }

  lemma PayIsApply(b: map<Uuid, int>, t: Transaction)
    requires t.sender in b && t.receiver in b && t.sender != t.receiver
    ensures Pay(b, t) == Apply(b, t)
  {
  }

  lemma CreditedBalances(rows: seq<Account>, t: Transaction)
    requires UniqueIds(rows)
    ensures Balances(Credited(rows, t)) == Apply(Balances(rows), t)
  {
    SameIds(Credited(rows, t), rows);
    var left, right := Balances(Credited(rows, t)), Apply(Balances(rows), t);
    forall id | id in left
      ensures left[id] == right[id]
    {
      CreditedLookup(rows, t, id);
    }
    MapsAgree(left, right);
  }

  /** The receipt tells the sender's balance as the ledger, replayed up to and with its row, gives it. */
  lemma ReceiptIsTrue(seeded: bool, db: Db, t: Transaction, now: Time)
    requires Sound(seeded, db)
    requires Transfer(db, t, now).outcome.Committed?
    ensures var r := Transfer(db, t, now).outcome.receipt;
            var after := Transfer(db, t, now).db;
            && r.senderFunds == Balance(seeded, after.ledger, r.sender)
            && after.ledger == db.ledger + [Transaction(r.id, r.timestamp, r.sender, r.receiver, t.amount, r.fee)]
            && r.sender == t.sender && r.receiver == t.receiver && r.id == t.id && r.timestamp == now
  {
  }

  /** When all coin together fits in 64 bits, no transfer overflows, and all coin together stays the same. */
  lemma FittingTotalsNeverOverflow(db: Db, t: Transaction, now: Time)
    requires UniqueIds(db.accounts) && Total(db.accounts) <= I64_MAX
    requires forall i :: 0 <= i < |db.accounts| ==> db.accounts[i].funds >= 0
    ensures FirstFailure(db, t) != Some(Error(SQLError(IntegerOverflow)))
    ensures Total(Transfer(db, t, now).db.accounts) == Total(db.accounts)
  {
    var rows := db.accounts;
    if t.sender in Ids(rows) && t.receiver in Ids(rows) && t.sender != t.receiver {
      PartiesBound(rows, t);
    }
    if FirstFailure(db, t).None? {
      SameIds(Credited(rows, t), rows);
      CreditedFunds(rows, t, Ids(rows));
    }
  }

  lemma PartiesBound(rows: seq<Account>, t: Transaction)
    requires UniqueIds(rows) && forall i :: 0 <= i < |rows| ==> rows[i].funds >= 0
    requires t.sender in Ids(rows) && t.receiver in Ids(rows) && t.sender != t.receiver
    ensures Lookup(rows, t.sender).value.funds + Lookup(rows, t.receiver).value.funds <= Total(rows)
  {
    var i :| 0 <= i < |rows| && rows[i].id == t.sender;
    var j :| 0 <= j < |rows| && rows[j].id == t.receiver;
    LookupAt(rows, i);
    LookupAt(rows, j);
    PairBound(rows, Ids(rows), i, j);
  }

  /**
   Over sound tables no sum leaves 64 bits, the fee assertion is never reached by a dispatched
   message, and a repeated transaction identifier is the only constraint that can fail.
   */
  lemma OnlyDuplicateIdsFail(seeded: bool, db: Db, sender: Uuid, receiver: Uuid, amount: I64, env: Env)
    requires Sound(seeded, db)
    ensures var t := Transaction(env.newId, env.created, sender, receiver, amount, 0);
            && FirstFailure(db, t) != Some(FeeAssertion)
            && (forall cause :: FirstFailure(db, t) == Some(Error(SQLError(cause))) ==>
                  cause == UniqueViolation && HasTx(db.ledger, env.newId))
            && (FirstFailure(db, t).None? ==>
                  forall i :: 0 <= i < |db.accounts| ==>
                    0 <= Transfer(db, t, env.now).db.accounts[i].funds <= I64_MAX)
  {
    var t := Transaction(env.newId, env.created, sender, receiver, amount, 0);
    FundsBounded(seeded, db);
    Conservation(seeded, db);
    FittingTotalsNeverOverflow(db, t, env.now);
    if FirstFailure(db, t).None? {
      TransferKeepsSound(seeded, db, t, env.now);
      FundsBounded(seeded, Transfer(db, t, env.now).db);
    }
  }

  lemma FundsBounded(seeded: bool, db: Db)
    requires Sound(seeded, db)
    ensures forall i :: 0 <= i < |db.accounts| ==> 0 <= db.accounts[i].funds <= SEED_FUNDS
  {
    forall i | 0 <= i < |db.accounts|
      ensures db.accounts[i].funds >= 0
    {
      assert db.ledger[..|db.ledger|] == db.ledger;
      assert Balance(seeded, db.ledger[..|db.ledger|], db.accounts[i].id) >= 0;
    }
    Conservation(seeded, db);
    NonNegativeSum(db.accounts, Ids(db.accounts));
  }
}
