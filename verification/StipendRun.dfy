/**
 One run of the stipend tool: what it can do at most while others use the system too, and what it
 does exactly when it has the system to itself.
 */
module StipendRun {
  import opened Basics
  import opened Messages
  import opened Tables
  import opened Bookkeeping
  import opened Store
  import opened Auth
  import opened Machine
  import opened Safety
  import opened Guarantees
  import opened Gateway
  import opened History

  // ---------------------------------------------------------------- under interleaving

  /** What the rows of one client's calls add up to. */
  function PaidBy(ledger: seq<Transaction>, origin: seq<Tag>, pid: nat): int
    requires |ledger| == |origin|
  {
    if ledger == [] then 0
    else
      var last := |ledger| - 1;
      PaidBy(ledger[..last], origin[..last], pid) + if origin[last].pid == pid then ledger[last].amount else 0
  }

  function Receivers(ledger: seq<Transaction>, origin: seq<Tag>, pid: nat): (r: set<Uuid>)
    requires |ledger| == |origin|
    ensures forall id :: id in r ==> exists k :: 0 <= k < |ledger| && origin[k].pid == pid && ledger[k].receiver == id
  {
    if ledger == [] then {}
    else
      var last := |ledger| - 1;
      var before := Receivers(ledger[..last], origin[..last], pid);
      if origin[last].pid == pid then before + {ledger[last].receiver} else before
  }

  lemma OneMore(a: int, n: int)
    ensures a * (n + 1) == a * n + a
  {
  }

  lemma NewReceiver(ledger: seq<Transaction>, origin: seq<Tag>, pid: nat)
    requires |ledger| == |origin| > 0 && origin[|origin| - 1].pid == pid
    requires forall j :: 0 <= j < |ledger| - 1 && origin[j].pid == pid ==>
               ledger[j].receiver != ledger[|ledger| - 1].receiver
    ensures ledger[|ledger| - 1].receiver !in Receivers(ledger[..|ledger| - 1], origin[..|ledger| - 1], pid)
  {
  }

  lemma {:induction false} PaidIsCounted(ledger: seq<Transaction>, origin: seq<Tag>, pid: nat, amount: int)
    requires |ledger| == |origin|
    requires forall k :: 0 <= k < |ledger| && origin[k].pid == pid ==> ledger[k].amount == amount
    requires forall j, k :: 0 <= j < k < |ledger| && origin[j].pid == pid && origin[k].pid == pid ==>
               ledger[j].receiver != ledger[k].receiver
    ensures PaidBy(ledger, origin, pid) == amount * |Receivers(ledger, origin, pid)|
  {
    if ledger != [] {
      var last := |ledger| - 1;
      PaidIsCounted(ledger[..last], origin[..last], pid, amount);
      if origin[last].pid == pid {
        var before := Receivers(ledger[..last], origin[..last], pid);
        NewReceiver(ledger, origin, pid);
        assert |before + {ledger[last].receiver}| == |before| + 1;
        OneMore(amount, |before|);
      }
    }
  }

  lemma SubsetIsSmaller<T>(a: set<T>, b: set<T>)
    requires a <= b
    ensures |a| <= |b|
  {
    assert b == a + (b - a);
  }

  /** A row of a stipend run pays one account of its snapshot, from the seed. */
  lemma StipendRow(c: Crypto, s: System, k: nat)
    requires Inv(c, s) && k < |s.db.ledger| && SenderOf(s, k).job.Stipend?
    ensures var p := SenderOf(s, k);
            && 1 <= s.origin[k].call <= |p.snapshot|
            && s.db.ledger[k].receiver == p.snapshot[s.origin[k].call - 1].id
            && s.db.ledger[k].receiver != SEED_ID && s.db.ledger[k].sender == SEED_ID
            && s.db.ledger[k].amount == p.job.amount
  {
  }

  lemma StipendReceiversDiffer(c: Crypto, s: System, j: nat, k: nat)
    requires Inv(c, s) && j < k < |s.db.ledger|
    requires s.origin[j].pid == s.origin[k].pid && SenderOf(s, k).job.Stipend?
    ensures s.db.ledger[j].receiver != s.db.ledger[k].receiver
  {
  }

  /** The rows of the run go from the seed to accounts of its snapshot, each to a different one. */
  ghost predicate PaysSnapshotOnce(s: System, p: Proc, pid: nat)
    requires p.job.Stipend? && |s.origin| == |s.db.ledger|
  {
    && (forall k :: 0 <= k < |s.origin| && s.origin[k].pid == pid ==>
          && s.db.ledger[k].sender == SEED_ID && s.db.ledger[k].amount == p.job.amount > 0
          && s.db.ledger[k].receiver in Ids(p.snapshot) - {SEED_ID})
    && (forall j, k :: 0 <= j < k < |s.origin| && s.origin[j].pid == pid && s.origin[k].pid == pid ==>
          s.db.ledger[j].receiver != s.db.ledger[k].receiver)
  }

  lemma StipendPaysSnapshotOnce(c: Crypto, s: System, pid: nat)
    requires Inv(c, s) && pid < |s.procs| && s.procs[pid].job.Stipend?
    ensures PaysSnapshotOnce(s, s.procs[pid], pid)
  {
    var p := s.procs[pid];
    forall k | 0 <= k < |s.origin| && s.origin[k].pid == pid
      ensures s.db.ledger[k].sender == SEED_ID && s.db.ledger[k].amount == p.job.amount > 0
      ensures s.db.ledger[k].receiver in Ids(p.snapshot) - {SEED_ID}
    {
      StipendRow(c, s, k);
      assert RowOk(s.db.ledger[k], Ids(s.db.accounts));
    }
    forall j, k | 0 <= j < k < |s.origin| && s.origin[j].pid == pid && s.origin[k].pid == pid
      ensures s.db.ledger[j].receiver != s.db.ledger[k].receiver
    {
      StipendReceiversDiffer(c, s, j, k);
    }
  }

  /**
   Whatever else happens meanwhile, the snapshot of a stipend run is the eligible part of the accounts
   table as the core held it at some moment, and the run pays each account of it at most once, never
   the seed, always from the seed, and in total at most `amount` for each one that is not the seed.
   */
  lemma StipendIsBounded(c: Crypto, events: seq<Event>, pid: nat)
    requires var s := Run(c, INITIAL, events); pid < |s.procs| && s.procs[pid].job.Stipend?
    ensures var s := Run(c, INITIAL, events);
            var p := s.procs[pid];
            && |s.origin| == |s.db.ledger| && PaysSnapshotOnce(s, p, pid)
            && (p.snapshot != [] ==>
                  exists k :: 0 <= k <= |events|
                           && p.snapshot == Eligible(At(c, events, k).db.accounts, p.job.minimum))
            && (forall i :: 0 <= i < |p.snapshot| ==> p.snapshot[i].funds <= p.job.minimum)
            && (p.job.amount > 0 ==>
                  PaidBy(s.db.ledger, s.origin, pid) <= p.job.amount * |Ids(p.snapshot) - {SEED_ID}|)
            && (p.job.amount <= 0 ==> PaidBy(s.db.ledger, s.origin, pid) == 0)
  {
    InvFromTheStart(c, events);
    SnapshotIsPast(c, events, pid);
    var s := Run(c, INITIAL, events);
    assert ProcOk(s.procs[pid]);
    StipendPaysSnapshotOnce(c, s, pid);
    StipendTotal(s, s.procs[pid], pid);
  }

  lemma ScaledBound(a: nat, x: int, y: int)
    requires x <= y
    ensures a * x <= a * y
  {
  }

  lemma StipendTotal(s: System, p: Proc, pid: nat)
    requires p.job.Stipend? && |s.origin| == |s.db.ledger| && PaysSnapshotOnce(s, p, pid)
    ensures p.job.amount > 0 ==>
              PaidBy(s.db.ledger, s.origin, pid) <= p.job.amount * |Ids(p.snapshot) - {SEED_ID}|
    ensures p.job.amount <= 0 ==> PaidBy(s.db.ledger, s.origin, pid) == 0
  {
    PaidIsCounted(s.db.ledger, s.origin, pid, p.job.amount);
    var paid := Receivers(s.db.ledger, s.origin, pid);
    SubsetIsSmaller(paid, Ids(p.snapshot) - {SEED_ID});
    if p.job.amount > 0 {
      ScaledBound(p.job.amount, |paid|, |Ids(p.snapshot) - {SEED_ID}|);
    } else if id :| id in paid {
      assert false;
    } else {
      assert |paid| == 0;
    }
  }

  // ---------------------------------------------------------------- alone

  /** The payments in order; the n-th draws its identifier and clocks from entry n of the tape. */
  function PayAll(db: Db, receivers: seq<Account>, amount: I64, tape: nat -> Env): Db {
    if receivers == [] then db
    else
      var last := |receivers| - 1;
      Respond(
        PayAll(db, receivers[..last], amount, tape),
        CreateTransaction(SEED_ID, receivers[last].id, amount), tape(|receivers|)).db
  }

  lemma TransfersAnswer(db: Db, receiver: Uuid, amount: I64, env: Env)
    ensures Respond(db, CreateTransaction(SEED_ID, receiver, amount), env).message.Some?
  {
  }

  /** One call of the tool, answered. */
  method Ask(con: Connection, m: ClientMessage, env: Env) returns (answer: ServerMessage)
    requires con.Valid()
    modifies con
    ensures con.Valid()
    ensures Responded(con.Committed(), Some(answer)) == Respond(old(con.Committed()), m, env)
  {
    var reply := MessageDispatch(con, ClientPacket(VERSION, env.newId, m), env);
    return reply.value.message;
  }

  /** The stipend tool's main, every request answered and nobody else about. */
  method StipendMain(con: Connection, minimum: I64, amount: I64, tape: nat -> Env)
    requires con.Valid()
    modifies con
    ensures con.Valid()
    ensures con.Committed()
         == if amount > 100 then old(con.Committed())
            else PayAll(old(con.Committed()), Eligible(old(con.accounts), minimum), amount, tape)
  {
    if amount > 100 { return; }
    var asked := Ask(con, GetAccounts, tape(0));
    var rows := asked.accounts.value;
    var eligible := Eligible(rows, minimum);
    var i := 0;
    while i < |eligible|
      invariant 0 <= i <= |eligible|
      invariant con.Valid()
      invariant con.Committed() == PayAll(old(con.Committed()), eligible[..i], amount, tape)
    {
      var answer := Ask(con, CreateTransaction(SEED_ID, eligible[i].id, amount), tape(i + 1));
      assert eligible[..i + 1][..i] == eligible[..i];
      i := i + 1;
    }
    assert eligible[..i] == eligible;
  }

  function NonSeed(rows: seq<Account>): (r: seq<Uuid>)
    ensures forall id :: id in r ==> id in Ids(rows) && id != SEED_ID
  {
    if rows == [] then []
    else
      var last := rows[|rows| - 1];
      assert rows == rows[..|rows| - 1] + [last];
      IdsOfAppended(rows[..|rows| - 1], last);
      if last.id == SEED_ID then NonSeed(rows[..|rows| - 1]) else NonSeed(rows[..|rows| - 1]) + [last.id]
  }

  /** Every account but the seed is listed. */
  lemma {:induction false} NonSeedIsComplete(rows: seq<Account>, i: nat)
    requires i < |rows| && rows[i].id != SEED_ID
    ensures rows[i].id in NonSeed(rows)
  {
    if i < |rows| - 1 {
      NonSeedIsComplete(rows[..|rows| - 1], i);
    }
  }

  /** And in order: the list of a concatenation is the concatenation of the lists. */
  lemma {:induction false} NonSeedKeepsOrder(a: seq<Account>, b: seq<Account>)
    ensures NonSeed(a + b) == NonSeed(a) + NonSeed(b)
    decreases |b|
  {
    if b == [] {
      assert a + b == a;
    } else {
      NonSeedKeepsOrder(a, b[..|b| - 1]);
      assert (a + b)[..|a + b| - 1] == a + b[..|b| - 1];
    }
  }

  function Min(a: int, b: int): int {
    if a <= b then a else b
  }

  /** The accounts that get the stipend: as many as the seed can pay, in the order of the snapshot. */
  function Served(rows: seq<Account>, funds: nat, amount: int): seq<Uuid>
    requires amount > 0
  {
    NonSeed(rows)[..Min(|NonSeed(rows)|, funds / amount)]
  }

  /** The accounts table after the seed, holding `funds`, paid `amount` to each of `served`. */
  ghost predicate PaidOut(before: seq<Account>, after: seq<Account>, served: seq<Uuid>, amount: int) {
    && |after| == |before|
    && forall i :: 0 <= i < |before| ==>
         after[i] == before[i].(funds := before[i].funds
           + if before[i].id == SEED_ID then -(amount * |served|)
             else if before[i].id in served then amount else 0)
  }

  /** Every payment draws an identifier that no ledger row has and no other payment draws. */
  ghost predicate FreshTape(ledger: seq<Transaction>, tape: nat -> Env, n: nat) {
    && (forall i :: 1 <= i <= n ==> !HasTx(ledger, tape(i).newId))
    && (forall i, j :: 1 <= i < j <= n ==> tape(i).newId != tape(j).newId)
  }

  ghost predicate IdsFromTape(before: seq<Transaction>, after: seq<Transaction>, tape: nat -> Env, n: nat) {
    forall k :: 0 <= k < |after| ==>
      HasTx(before, after[k].id) || exists i :: 1 <= i <= n && tape(i).newId == after[k].id
  }

  lemma NextPaymentIsFresh(before: seq<Transaction>, after: seq<Transaction>, tape: nat -> Env, n: nat)
    requires FreshTape(before, tape, n + 1) && IdsFromTape(before, after, tape, n)
    ensures !HasTx(after, tape(n + 1).newId)
  {
  }

  lemma PaidOutSeed(before: seq<Account>, after: seq<Account>, served: seq<Uuid>, amount: int)
    requires PaidOut(before, after, served, amount) && UniqueIds(before) && SEED_ID in Ids(before)
    ensures UniqueIds(after) && Ids(after) == Ids(before)
    ensures Lookup(after, SEED_ID).value.funds == Lookup(before, SEED_ID).value.funds - amount * |served|
  {
    SameIds(after, before);
    var i :| 0 <= i < |before| && before[i].id == SEED_ID;
    LookupAt(before, i);
    LookupAt(after, i);
  }

  lemma PaidOutOnce(before: seq<Account>, after: seq<Account>, served: seq<Uuid>, t: Transaction)
    requires PaidOut(before, after, served, t.amount)
    requires t.sender == SEED_ID != t.receiver && t.fee == 0 && t.receiver !in served
    ensures PaidOut(before, Credited(after, t), served + [t.receiver], t.amount)
  {
  }

  /** How the list of served accounts grows with the snapshot. */
  lemma ServedGrows(rows: seq<Account>, last: Account, funds: nat, amount: int)
    requires amount > 0
    ensures var served := Served(rows, funds, amount);
            && |served| == Min(|NonSeed(rows)|, funds / amount)
            && Served(rows + [last], funds, amount)
               == (if last.id != SEED_ID && |NonSeed(rows)| < funds / amount then served + [last.id] else served)
            && (last.id != SEED_ID && |NonSeed(rows)| < funds / amount <==>
                  last.id != SEED_ID && funds - amount * |served| >= amount)
  {
    assert (rows + [last])[..|rows|] == rows;
    var n, q := |NonSeed(rows)|, funds / amount;
    Quotient(funds, amount, n);
    Quotient(funds, amount, q);
  }

  lemma Quotient(funds: nat, amount: int, n: nat)
    requires amount > 0
    ensures n < funds / amount <==> funds - amount * n >= amount
  {
    var q, r := funds / amount, funds % amount;
    assert funds == amount * q + r && 0 <= r < amount;
    if n < q {
      ScaledBound(amount, n + 1, q);
      assert amount * (n + 1) == amount * n + amount;
    } else {
      ScaledBound(amount, q, n);
    }
  }

  /** One more payment when the seed can still afford it; otherwise nothing happens. */
  lemma NextPayment(db: Db, receiver: Uuid, amount: I64, env: Env)
    requires Sound(true, db) && amount > 0 && receiver in Ids(db.accounts) && !HasTx(db.ledger, env.newId)
    ensures var t := Transaction(env.newId, env.created, SEED_ID, receiver, amount, 0);
            var after := Respond(db, CreateTransaction(SEED_ID, receiver, amount), env).db;
            if receiver != SEED_ID && Lookup(db.accounts, SEED_ID).value.funds >= amount then
              after == Db(Credited(db.accounts, t), db.ledger + [t.(timestamp := env.now)])
            else after == db
  {
    OnlyDuplicateIdsFail(true, db, SEED_ID, receiver, amount, env);
  }

  lemma NextPaymentUsesTape(
    opening: seq<Transaction>, before: seq<Transaction>, after: seq<Transaction>, tape: nat -> Env, n: nat)
    requires IdsFromTape(opening, before, tape, n)
    requires after == before
             || (|after| == |before| + 1 && after[..|before|] == before && after[|before|].id == tape(n + 1).newId)
    ensures IdsFromTape(opening, after, tape, n + 1)
  {
  }

  /** The invariant of the payment loop, for every part of the snapshot. */
  lemma {:induction false} PaymentsSoFar(db: Db, rows: seq<Account>, amount: I64, tape: nat -> Env)
    requires Sound(true, db) && amount > 0 && UniqueIds(rows) && Ids(rows) <= Ids(db.accounts)
    requires FreshTape(db.ledger, tape, |rows|)
    ensures var after := PayAll(db, rows, amount, tape);
            var funds := Lookup(db.accounts, SEED_ID).value.funds;
            && Sound(true, after) && IdsFromTape(db.ledger, after.ledger, tape, |rows|)
            && funds >= 0
            && PaidOut(db.accounts, after.accounts, Served(rows, funds, amount), amount)
  {
    LookupFunds(db.accounts, db.ledger, true, SEED_ID);
    CurrentBalance(db.ledger, true, SEED_ID);
    if rows == [] {
      assert IdsFromTape(db.ledger, db.ledger, tape, 0);
    } else {
      var init, last := rows[..|rows| - 1], rows[|rows| - 1];
      assert rows == init + [last];
      IdsOfAppended(init, last);
      PaymentsSoFar(db, init, amount, tape);
      OnePaymentMore(db, init, last, amount, tape);
    }
  }

  lemma OnePaymentMore(db: Db, init: seq<Account>, last: Account, amount: I64, tape: nat -> Env)
    requires Sound(true, db) && amount > 0
    requires last.id !in Ids(init) && last.id in Ids(db.accounts)
    requires FreshTape(db.ledger, tape, |init| + 1)
    requires var so := PayAll(db, init, amount, tape);
             var funds := Lookup(db.accounts, SEED_ID).value.funds;
             && Sound(true, so) && IdsFromTape(db.ledger, so.ledger, tape, |init|)
             && funds >= 0
             && PaidOut(db.accounts, so.accounts, Served(init, funds, amount), amount)
    ensures var after := PayAll(db, init + [last], amount, tape);
            var funds := Lookup(db.accounts, SEED_ID).value.funds;
            && Sound(true, after) && IdsFromTape(db.ledger, after.ledger, tape, |init| + 1)
            && PaidOut(db.accounts, after.accounts, Served(init + [last], funds, amount), amount)
  {
    var funds := Lookup(db.accounts, SEED_ID).value.funds;
    var so := PayAll(db, init, amount, tape);
    var env := tape(|init| + 1);
    var m := CreateTransaction(SEED_ID, last.id, amount);
    var t := Transaction(env.newId, env.created, SEED_ID, last.id, amount, 0);
    var served := Served(init, funds, amount);
    assert (init + [last])[..|init|] == init;
    assert PayAll(db, init + [last], amount, tape) == Respond(so, m, env).db;
    PaidOutSeed(db.accounts, so.accounts, served, amount);
    NextPaymentIsFresh(db.ledger, so.ledger, tape, |init|);
    NextPayment(so, last.id, amount, env);
    ServedGrows(init, last, funds, amount);
    RespondKeepsSound(true, so, m, env);
    NextPaymentUsesTape(db.ledger, so.ledger, Respond(so, m, env).db.ledger, tape, |init|);
    if last.id != SEED_ID && funds - amount * |served| >= amount {
      assert last.id !in served;
      PaidOutOnce(db.accounts, so.accounts, served, t);
    }
  }

  lemma ServedLength(rows: seq<Account>, funds: nat, amount: int)
    requires amount > 0
    ensures |Served(rows, funds, amount)| == Min(|NonSeed(rows)|, funds / amount)
  {
  }

  lemma EligibleAreAccounts(rows: seq<Account>, minimum: int)
    requires UniqueIds(rows)
    ensures UniqueIds(Eligible(rows, minimum)) && Ids(Eligible(rows, minimum)) <= Ids(rows)
  {
  }

  /**
   A stipend run that has the system to itself pays `amount` to exactly the first
   min(n, S / amount) of the n eligible accounts other than the seed, in snapshot order; the seed,
   which held S, pays for them, and nobody else changes.
   */
  lemma StipendAlone(db: Db, minimum: int, amount: I64, tape: nat -> Env)
    requires Sound(true, db) && 1 <= amount <= 100
    requires FreshTape(db.ledger, tape, |Eligible(db.accounts, minimum)|)
    ensures var rows := Eligible(db.accounts, minimum);
            var funds := Lookup(db.accounts, SEED_ID).value.funds;
            var after := PayAll(db, rows, amount, tape);
            && funds >= 0
            && |Served(rows, funds, amount)| == Min(|NonSeed(rows)|, funds / amount)
            && PaidOut(db.accounts, after.accounts, Served(rows, funds, amount), amount)
  {
    EligibleAreAccounts(db.accounts, minimum);
    var rows := Eligible(db.accounts, minimum);
    PaymentsSoFar(db, rows, amount, tape);
    ServedLength(rows, Lookup(db.accounts, SEED_ID).value.funds, amount);
  }

  /** An amount of zero or less changes nothing. */
  lemma {:induction false} NonPositiveStipend(db: Db, rows: seq<Account>, amount: I64, tape: nat -> Env)
    requires amount <= 0
    ensures PayAll(db, rows, amount, tape) == db
  {
    if rows != [] {
      NonPositiveStipend(db, rows[..|rows| - 1], amount, tape);
    }
  }

  // ---------------------------------------------------------------- the same run, message by message

  /** The question for the accounts and the first n payments. */
  function Rounds(pid: nat, n: nat, tape: nat -> Env): seq<Event> {
    if n == 0 then Round(pid, 0, tape(0)) else Rounds(pid, n - 1, tape) + Round(pid, n, tape(n))
  }

  /** Where the stipend client stands after n payments. */
  ghost predicate AfterPayments(p: Proc, minimum: I64, amount: I64, rows: seq<Account>, n: nat) {
    p.job == Stipend(minimum, amount) && p.stage == Paying && p.snapshot == rows && |p.log| == n + 1
  }

  lemma PaymentRound(c: Crypto, s: System, pid: nat, minimum: I64, amount: I64, rows: seq<Account>, n: nat, env: Env)
    requires InboxLinked(s) && s.running && pid < |s.procs| && n < |rows|
    requires AfterPayments(s.procs[pid], minimum, amount, rows, n)
    ensures var s' := Run(c, s, Round(pid, n + 1, env));
            && s'.running && |s'.procs| == |s.procs|
            && AfterPayments(s'.procs[pid], minimum, amount, rows, n + 1)
            && s'.db == Respond(s.db, CreateTransaction(SEED_ID, rows[n].id, amount), env).db
  {
    TransfersAnswer(s.db, rows[n].id, amount, env);
    RoundAnswers(c, s, pid, env);
  }

  lemma QuestionRound(c: Crypto, s: System, pid: nat, minimum: I64, amount: I64, env: Env)
    requires InboxLinked(s) && s.running && pid < |s.procs| && amount <= 100
    requires s.procs[pid] == Proc(Stipend(minimum, amount), Fresh, [], [])
    ensures var s' := Run(c, s, Round(pid, 0, env));
            && s'.running && |s'.procs| == |s.procs| && s'.db == s.db
            && AfterPayments(s'.procs[pid], minimum, amount, Eligible(s.db.accounts, minimum), 0)
  {
    RoundAnswers(c, s, pid, env);
  }

  /** After n payments the tables are those of the tool's main after n payments. */
  ghost predicate InStep(db: Db, s: System, pid: nat, minimum: I64, amount: I64, tape: nat -> Env, n: nat)
    requires n <= |Eligible(db.accounts, minimum)|
  {
    var rows := Eligible(db.accounts, minimum);
    && s.running && pid < |s.procs|
    && AfterPayments(s.procs[pid], minimum, amount, rows, n)
    && s.db == PayAll(db, rows[..n], amount, tape)
  }

  lemma OneRoundInStep(
    c: Crypto, db: Db, s: System, pid: nat, minimum: I64, amount: I64, tape: nat -> Env, n: nat)
    requires InboxLinked(s) && n < |Eligible(db.accounts, minimum)|
    requires InStep(db, s, pid, minimum, amount, tape, n)
    ensures InStep(db, Run(c, s, Round(pid, n + 1, tape(n + 1))), pid, minimum, amount, tape, n + 1)
  {
    var rows := Eligible(db.accounts, minimum);
    PaymentRound(c, s, pid, minimum, amount, rows, n, tape(n + 1));
    assert rows[..n + 1][..n] == rows[..n];
  }

  /**
   In the system of interleaved clients, a stipend run whose calls are all answered with nobody in
   between leaves the tables exactly as the tool's main does by itself.
   */
  lemma {:induction false} LockstepIsStipendMain(
    c: Crypto, s: System, pid: nat, minimum: I64, amount: I64, tape: nat -> Env, n: nat)
    requires Inv(c, s) && s.running && amount <= 100 && pid < |s.procs|
    requires s.procs[pid] == Proc(Stipend(minimum, amount), Fresh, [], [])
    requires n <= |Eligible(s.db.accounts, minimum)|
    ensures InStep(s.db, Run(c, s, Rounds(pid, n, tape)), pid, minimum, amount, tape, n)
    decreases n
  {
    if n == 0 {
      QuestionRound(c, s, pid, minimum, amount, tape(0));
    } else {
      LockstepIsStipendMain(c, s, pid, minimum, amount, tape, n - 1);
      RunKeepsInv(c, s, Rounds(pid, n - 1, tape));
      OneRoundInStep(c, s.db, Run(c, s, Rounds(pid, n - 1, tape)), pid, minimum, amount, tape, n - 1);
      RunOfConcat(c, s, Rounds(pid, n - 1, tape), Round(pid, n, tape(n)));
    }
  }

  /** So a stipend run alone in a reachable system settles exactly as StipendAlone says. */
  lemma StipendAloneInTheSystem(
    c: Crypto, events: seq<Event>, pid: nat, minimum: I64, amount: I64, tape: nat -> Env)
    requires var s := Run(c, INITIAL, events);
             && s.running && s.seeded && 1 <= amount <= 100 && pid < |s.procs|
             && s.procs[pid] == Proc(Stipend(minimum, amount), Fresh, [], [])
             && FreshTape(s.db.ledger, tape, |Eligible(s.db.accounts, minimum)|)
    ensures var s := Run(c, INITIAL, events);
            var rows := Eligible(s.db.accounts, minimum);
            && SEED_ID in Ids(s.db.accounts)
            && var funds := Lookup(s.db.accounts, SEED_ID).value.funds;
            var after := Run(c, s, Rounds(pid, |rows|, tape)).db.accounts;
            && funds >= 0
            && PaidOut(s.db.accounts, after, Served(rows, funds, amount), amount)
  {
    InvFromTheStart(c, events);
    var s := Run(c, INITIAL, events);
    var rows := Eligible(s.db.accounts, minimum);
    LockstepIsStipendMain(c, s, pid, minimum, amount, tape, |rows|);
    assert rows[..|rows|] == rows;
    StipendAlone(s.db, minimum, amount, tape);
  }
}
