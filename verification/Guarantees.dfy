/** What holds in every state of every run, from the first start of the core on. */
module Guarantees {
  import opened Basics
  import opened Messages
  import opened Tables
  import opened Bookkeeping
  import opened Queries
  import opened Hex
  import opened Auth
  import opened Machine
  import opened Safety

  // ---------------------------------------------------------------- runs

  lemma {:induction false} RunOfConcat(c: Crypto, s: System, before: seq<Event>, after: seq<Event>)
    ensures Run(c, s, before + after) == Run(c, Run(c, s, before), after)
  {
    if after == [] {
      assert before + after == before;
    } else {
      RunOfConcat(c, s, before, after[..|after| - 1]);
      assert (before + after)[..|before + after| - 1] == before + after[..|after| - 1];
    }
  }

  lemma RunPrefix(c: Crypto, s: System, es: seq<Event>, i: nat)
    requires i < |es|
    ensures Run(c, s, es[..i + 1]) == Step(c, Run(c, s, es[..i]), es[i])
  {
    assert es[..i + 1][..i] == es[..i];
  }

  // ---------------------------------------------------------------- closed circulation

  /** All coin together is nothing, or exactly the seed's opening coin. */
  lemma TotalIsFixed(c: Crypto, events: seq<Event>)
    ensures var s := Run(c, INITIAL, events);
            Total(s.db.accounts) == if s.seeded then 100000 else 0
  {
    InvFromTheStart(c, events);
    var s := Run(c, INITIAL, events);
    Conservation(s.seeded, s.db);
  }

  lemma {:induction false} SeededStaysSeeded(c: Crypto, s: System, events: seq<Event>)
    requires Inv(c, s) && s.seeded
    ensures Run(c, s, events).seeded
  {
    if events != [] {
      SeededStaysSeeded(c, s, events[..|events| - 1]);
      RunKeepsInv(c, s, events[..|events| - 1]);
      StepKeepsSound(c, Run(c, s, events[..|events| - 1]), events[|events| - 1]);
    }
  }

  /**
   The first start that inserts the seed brings the whole circulation into being; afterwards no
   message, crash or restart changes the total.
   */
  lemma FirstSeedingFixesTotal(c: Crypto, before: seq<Event>, now: Time, after: seq<Event>)
    requires var s := Run(c, INITIAL, before); !s.running && SEED_ID !in Ids(s.db.accounts)
    ensures Total(Run(c, INITIAL, before + [StartCore(false, now)] + after).db.accounts) == 100000
  {
    var start := [StartCore(false, now)];
    InvFromTheStart(c, before);
    InvFromTheStart(c, before + start);
    var s := Run(c, INITIAL, before);
    RunOfConcat(c, INITIAL, before, start);
    assert Run(c, s, start) == Step(c, Run(c, s, start[..0]), start[0]);
    assert Run(c, INITIAL, before + start).seeded;
    SeededStaysSeeded(c, Run(c, INITIAL, before + start), after);
    RunOfConcat(c, INITIAL, before + start, after);
    TotalIsFixed(c, before + start + after);
  }

  // ---------------------------------------------------------------- the ledger explains the balances

  /** In every reachable state the table is the ledger replayed, and no prefix overdraws anyone. */
  lemma LedgerExplainsBalances(c: Crypto, events: seq<Event>, k: nat, id: Uuid)
    requires var s := Run(c, INITIAL, events); k <= |s.db.ledger| && id in Ids(s.db.accounts)
    ensures var s := Run(c, INITIAL, events);
            var opening := OpeningBalances(s.db.accounts, s.seeded);
            && Balances(s.db.accounts) == Replay(opening, s.db.ledger)
            && id in Replay(opening, s.db.ledger[..k]) && Replay(opening, s.db.ledger[..k])[id] >= 0
  {
    InvFromTheStart(c, events);
    var s := Run(c, INITIAL, events);
    ReplayGivesBalances(s.seeded, s.db);
    PrefixesReplayNonNegative(s.seeded, s.db, k, id);
  }

  /** Any set of accounts holds its opening coin plus what came in across the cut, less what went out. */
  lemma CutsBalance(c: Crypto, events: seq<Event>, side: set<Uuid>)
    ensures var s := Run(c, INITIAL, events);
            FundsIn(s.db.accounts, side)
            == (if s.seeded && SEED_ID in side then 100000 else 0)
               + Inflow(s.db.ledger, side) - Outflow(s.db.ledger, side)
  {
    InvFromTheStart(c, events);
    var s := Run(c, INITIAL, events);
    CutLaw(s.db.accounts, s.db.ledger, s.seeded, side);
  }

  /** No dispatched message panics the core or meets a failing constraint other than a repeated key. */
  lemma DispatchAlwaysAnswers(c: Crypto, events: seq<Event>, m: ClientMessage, env: Env)
    ensures var s := Run(c, INITIAL, events);
            var answer := Respond(s.db, m, env).message;
            && answer.Some?
            && (forall cause :: answer.value == CreateTransactionResponse(Err(SQLError(cause))) ==>
                  cause == UniqueViolation && HasTx(s.db.ledger, env.newId))
  {
    InvFromTheStart(c, events);
    var s := Run(c, INITIAL, events);
    if m.CreateTransaction? {
      OnlyDuplicateIdsFail(s.seeded, s.db, m.sender, m.receiver, m.amount, env);
    }
  }

  // ---------------------------------------------------------------- tokens and the seed

  /**
   Every token belongs to an account of the core, no account has two, and once the circulation
   exists the seed has none.
   */
  lemma SeedHasNoToken(c: Crypto, events: seq<Event>)
    ensures var s := Run(c, INITIAL, events);
            && OneRowEach(s.auth)
            && (forall k :: 0 <= k < |s.auth| ==> s.auth[k].account in Ids(s.db.accounts))
            && (Total(s.db.accounts) == 100000 ==>
                  forall k :: 0 <= k < |s.auth| ==> s.auth[k].account != SEED_ID)
  {
    InvFromTheStart(c, events);
    TotalIsFixed(c, events);
  }

  /** An issued token is good up to and at its expiry, and expired after it, whatever else happens. */
  lemma IssuedTokenStaysValid(
    c: Crypto, before: seq<Event>, pid: nat, bytes: Bytes, salt: nat, issued: Time, after: seq<Event>, now: Time)
    requires Faithful(c) && |bytes| == TOKEN_BYTES
    requires var s := Run(c, INITIAL, before); pid < |s.procs| && s.procs[pid].stage.Created?
    ensures var account := Run(c, INITIAL, before).procs[pid].stage.account;
            var later := Run(c, INITIAL, before + [IssueToken(pid, bytes, salt, issued)] + after);
            Validate(c, later.auth, Print(bytes), account, now)
            == if now <= issued + 2592000 then Ok(true) else Err(TokenExpired)
  {
    var issue := [IssueToken(pid, bytes, salt, issued)];
    var s := Run(c, INITIAL, before);
    RunOfConcat(c, INITIAL, before, issue);
    assert Run(c, s, issue) == Step(c, Run(c, s, issue[..0]), issue[0]);
    var s1 := Run(c, INITIAL, before + issue);
    assert s1.auth == s.auth + [NewRow(c, s.procs[pid].stage.account, bytes, salt, issued)];
    RunOfConcat(c, INITIAL, before + issue, after);
    TablesOnlyGrow(c, s1, after);
    InvFromTheStart(c, before + issue + after);
    var later := Run(c, INITIAL, before + issue + after);
    assert later.auth[|s.auth|] == s1.auth[|s.auth|];
    IssuedTokenAnswers(c, later.auth, |s.auth|, bytes, salt, issued, now);
  }

  /** In every reachable state the answer to a token does not depend on the order of the table. */
  lemma TokenAnswerIgnoresOrder(
    c: Crypto, events: seq<Event>, shuffled: seq<AuthRow>, text: seq<Ascii>, account: Uuid, now: Time)
    requires multiset(Run(c, INITIAL, events).auth) == multiset(shuffled)
    ensures Validate(c, Run(c, INITIAL, events).auth, text, account, now)
         == Validate(c, shuffled, text, account, now)
  {
    InvFromTheStart(c, events);
    AnswerIgnoresOrder(c, Run(c, INITIAL, events).auth, shuffled, text, account, now);
  }

  // ---------------------------------------------------------------- append-only tables

  lemma StepGrowsTables(c: Crypto, s: System, e: Event)
    ensures s.db.ledger <= Step(c, s, e).db.ledger
    ensures s.auth <= Step(c, s, e).auth
  {
    if e.Handle? {
      if s.running && e.tag in s.inbox {
        RespondAddsAtMostOneRow(s.db, s.inbox[e.tag].message, e.env);
        var after := Respond(s.db, s.inbox[e.tag].message, e.env).db.ledger;
        assert s.db.ledger == after[..|s.db.ledger|];
      }
    } else {
      assert Step(c, s, e).db.ledger == s.db.ledger;
    }
  }

  lemma StepKeepsIds(c: Crypto, s: System, e: Event)
    ensures Ids(s.db.accounts) <= Ids(Step(c, s, e).db.accounts)
  {
    if e.Handle? {
      if s.running && e.tag in s.inbox {
        RespondKeepsIds(s.db, s.inbox[e.tag].message, e.env);
      }
    } else if e.StartCore? {
      IdsOfAppended(s.db.accounts, SeedAccount());
    } else {
      assert Step(c, s, e).db == s.db;
    }
  }

  lemma {:induction false} TablesOnlyGrow(c: Crypto, s: System, events: seq<Event>)
    ensures s.db.ledger <= Run(c, s, events).db.ledger
    ensures s.auth <= Run(c, s, events).auth
  {
    if events != [] {
      TablesOnlyGrow(c, s, events[..|events| - 1]);
      StepGrowsTables(c, Run(c, s, events[..|events| - 1]), events[|events| - 1]);
    }
  }

  /** A row read once is read the same by both of its parties, and by nobody else, ever after. */
  lemma RowsAreReadForever(
    c: Crypto, before: seq<Event>, after: seq<Event>, account: Uuid, other: Uuid, id: Uuid, t: Transaction)
    ensures FetchTransaction(Run(c, INITIAL, before).db, account, id) == Ok(t) ==>
              (PartyTo(t, other) <==> FetchTransaction(Run(c, INITIAL, before + after).db, other, id) == Ok(t))
  {
    InvFromTheStart(c, before + after);
    RunOfConcat(c, INITIAL, before, after);
    TablesOnlyGrow(c, Run(c, INITIAL, before), after);
    if FetchTransaction(Run(c, INITIAL, before).db, account, id) == Ok(t) {
      CommittedRowIsShared(Run(c, INITIAL, before).db, Run(c, INITIAL, before + after).db, account, other, id, t);
    }
  }

  /** Every row is in two histories: over all accounts their lengths add up to twice the ledger. */
  lemma EveryRowIsReadTwice(c: Crypto, events: seq<Event>, begin: Time, end: Time)
    requires Covers(Run(c, INITIAL, events).db.ledger, begin, end)
    ensures var db := Run(c, INITIAL, events).db;
            HistoryLengths(db.accounts, db.ledger, begin, end) == 2 * |db.ledger|
  {
    InvFromTheStart(c, events);
    var db := Run(c, INITIAL, events).db;
    HistoriesCountTwice(db.accounts, db.ledger, begin, end);
  }

  // ---------------------------------------------------------------- who debits whom

  /** The client behind a ledger row. */
  function SenderOf(s: System, k: nat): Proc
    requires k < |s.origin| && s.origin[k].pid < |s.procs|
  {
    s.procs[s.origin[k].pid]
  }

  /** A row that came through the gateway debits the account whose token was presented, never the seed. */
  lemma GatewayNeverDebitsSeed(c: Crypto, events: seq<Event>, k: nat)
    requires k < |Run(c, INITIAL, events).db.ledger|
    ensures var s := Run(c, INITIAL, events);
            && |s.origin| == |s.db.ledger| && s.origin[k].pid < |s.procs|
            && (SenderOf(s, k).job.Gated? ==>
                  && s.db.ledger[k].sender == SenderOf(s, k).job.account
                  && s.db.ledger[k].sender != SEED_ID
                  && Entitled(c, s.auth, s.db.ledger[k].sender, SenderOf(s, k).job.token))
            && (s.db.ledger[k].sender == SEED_ID <==> SenderOf(s, k).job.SeedTx? || SenderOf(s, k).job.Stipend?)
  {
    InvFromTheStart(c, events);
    var s := Run(c, INITIAL, events);
    var tag := s.origin[k];
    assert Sent(s.procs, tag);
    var p := s.procs[tag.pid];
    assert ProcOk(p);
    assert RowOf(s.db.ledger[k], p.log[tag.call].packet.message);
    if p.job.Gated? {
      var j :| 0 <= j < |s.auth| && s.auth[j].account == p.job.account && Accepts(c, p.job.token, s.auth[j].hash);
    }
  }

  /**
   A gateway request or a run of the seed tool is behind at most one row, and a client that got no
   answer to a call makes no other call after it.
   */
  lemma OneRowPerRequest(c: Crypto, events: seq<Event>, j: nat, k: nat)
    requires var s := Run(c, INITIAL, events); j < k < |s.db.ledger|
    ensures var s := Run(c, INITIAL, events);
            && |s.origin| == |s.db.ledger| && s.origin[j].pid < |s.procs|
            && (s.origin[j].pid == s.origin[k].pid ==> SenderOf(s, j).job.Stipend?)
    ensures forall i, n :: 0 <= i < |Run(c, INITIAL, events).procs| ==>
              var p := Run(c, INITIAL, events).procs[i];
              0 <= n < |p.log| && !p.log[n].result.Answer? ==> n == |p.log| - 1
  {
    InvFromTheStart(c, events);
    var s := Run(c, INITIAL, events);
    assert Sent(s.procs, s.origin[j]) && Sent(s.procs, s.origin[k]);
    assert ProcOk(SenderOf(s, j));
    assert s.origin[j] != s.origin[k];
    forall i | 0 <= i < |s.procs| ensures OnlyLastUnanswered(s.procs[i]) {
      assert ProcOk(s.procs[i]);
    }
  }

  /** With these three clients, no payment from the seed is larger than the tools' limit. */
  lemma SeedPaymentsAreCapped(c: Crypto, events: seq<Event>, k: nat)
    requires k < |Run(c, INITIAL, events).db.ledger|
    requires Run(c, INITIAL, events).db.ledger[k].sender == SEED_ID
    ensures 1 <= Run(c, INITIAL, events).db.ledger[k].amount <= 100
  {
    InvFromTheStart(c, events);
    GatewayNeverDebitsSeed(c, events, k);
    var s := Run(c, INITIAL, events);
    assert Sent(s.procs, s.origin[k]) && ProcOk(SenderOf(s, k));
    assert RowOk(s.db.ledger[k], Ids(s.db.accounts));
  }

  function SeedPayments(ledger: seq<Transaction>): nat {
    if ledger == [] then 0
    else SeedPayments(ledger[..|ledger| - 1]) + if ledger[|ledger| - 1].sender == SEED_ID then 1 else 0
  }

  lemma {:induction false} CappedOutflow(ledger: seq<Transaction>)
    requires forall k :: 0 <= k < |ledger| ==> ledger[k].amount > 0
    requires forall k :: 0 <= k < |ledger| && ledger[k].sender == SEED_ID ==> ledger[k].amount <= 100
    ensures Outflow(ledger, {SEED_ID}) <= 100 * SeedPayments(ledger)
    ensures Inflow(ledger, {SEED_ID}) >= 0
  {
    if ledger != [] {
      CappedOutflow(ledger[..|ledger| - 1]);
    }
  }

  /**
   After n payments from the seed, all other accounts together hold at most 100 n coin; and
   emptying the seed takes at least a thousand payments.
   */
  lemma DrainingIsSlow(c: Crypto, events: seq<Event>)
    ensures var s := Run(c, INITIAL, events);
            var n := SeedPayments(s.db.ledger);
            && FundsIn(s.db.accounts, Ids(s.db.accounts) - {SEED_ID}) <= 100 * n
            && (s.seeded ==> SEED_ID in Ids(s.db.accounts))
            && (s.seeded && Lookup(s.db.accounts, SEED_ID).value.funds == 0 ==> n >= 1000)
            && (s.seeded ==> FundsIn(s.db.accounts, {SEED_ID}) >= 100000 - 100 * n)
  {
    InvFromTheStart(c, events);
    var s := Run(c, INITIAL, events);
    forall k | 0 <= k < |s.db.ledger| && s.db.ledger[k].sender == SEED_ID
      ensures s.db.ledger[k].amount <= 100
    {
      SeedPaymentsAreCapped(c, events, k);
    }
    forall k | 0 <= k < |s.db.ledger| ensures s.db.ledger[k].amount > 0 {
      assert RowOk(s.db.ledger[k], Ids(s.db.accounts));
    }
    CappedOutflow(s.db.ledger);
    CoinOutsideSeed(s.seeded, s.db);
    CutLaw(s.db.accounts, s.db.ledger, s.seeded, {SEED_ID});
    if s.seeded {
      LookupFunds(s.db.accounts, s.db.ledger, s.seeded, SEED_ID);
      SeedFundsAreFlows(s.db.ledger);
    }
  }

  lemma {:induction false} SeedFundsAreFlows(ledger: seq<Transaction>)
    requires forall k :: 0 <= k < |ledger| ==> ledger[k].fee == 0 && ledger[k].sender != ledger[k].receiver
    ensures Net(ledger, SEED_ID) == Inflow(ledger, {SEED_ID}) - Outflow(ledger, {SEED_ID})
  {
    if ledger != [] {
      SeedFundsAreFlows(ledger[..|ledger| - 1]);
    }
  }
}
