/**
 Where answers come from: every answer in flight, and with message identifiers that do not repeat
 every answer accepted, is the core's to that very request, over the tables of one moment of the run.
 */
module History {
  import opened Basics
  import opened Messages
  import opened Tables
  import opened Bookkeeping
  import opened Queries
  import opened Auth
  import opened Machine
  import opened Safety
  import opened Guarantees
  import opened Delivery

  /** The system before event k of the run. */
  function At(c: Crypto, events: seq<Event>, k: nat): System
    requires k <= |events|
  {
    Run(c, INITIAL, events[..k])
  }

  /**
   Event k is the core handling call t: the call's message is in its socket, the answer is the
   handler's over the tables of that moment, and what the handler leaves is in place right after.
   */
  ghost predicate AnsweredAt(
    c: Crypto, events: seq<Event>, k: nat, t: Tag, message: ClientMessage, answer: ServerMessage)
    requires k < |events|
  {
    var s := At(c, events, k);
    && events[k].Handle? && t in s.inbox && s.inbox[t].message == message
    && Respond(s.db, message, events[k].env) == Responded(At(c, events, k + 1).db, Some(answer))
  }

  ghost predicate Genuine(c: Crypto, events: seq<Event>, t: Tag, message: ClientMessage, answer: ServerMessage) {
    exists k :: 0 <= k < |events| && AnsweredAt(c, events, k, t, message, answer)
  }

  lemma GenuineLasts(
    c: Crypto, events: seq<Event>, more: seq<Event>, t: Tag, message: ClientMessage, answer: ServerMessage)
    requires Genuine(c, events, t, message, answer)
    ensures Genuine(c, events + more, t, message, answer)
  {
    var k :| 0 <= k < |events| && AnsweredAt(c, events, k, t, message, answer);
    assert (events + more)[..k] == events[..k] && (events + more)[..k + 1] == events[..k + 1];
    assert AnsweredAt(c, events + more, k, t, message, answer);
  }

  // ---------------------------------------------------------------- answers in flight

  ghost predicate RepliesGenuine(c: Crypto, events: seq<Event>, s: System) {
    forall t :: t in s.replies ==>
      Sent(s.procs, t) && Genuine(c, events, t, PacketOf(s.procs, t).message, s.replies[t].message)
  }

  /** Only the handling of call t makes an answer to it. */
  lemma NewReply(c: Crypto, s: System, e: Event, t: Tag)
    requires t in Step(c, s, e).replies
    ensures (t in s.replies && Step(c, s, e).replies[t] == s.replies[t])
            || (&& e.Handle? && t in s.inbox
                && Respond(s.db, s.inbox[t].message, e.env)
                   == Responded(Step(c, s, e).db, Some(Step(c, s, e).replies[t].message)))
  {
  }

  lemma {:induction false} RepliesComeFromHandlers(c: Crypto, events: seq<Event>)
    ensures RepliesGenuine(c, events, Run(c, INITIAL, events))
  {
    if events != [] {
      var init, e := events[..|events| - 1], events[|events| - 1];
      assert events == init + [e];
      RepliesComeFromHandlers(c, init);
      InvFromTheStart(c, init);
      var s, s' := Run(c, INITIAL, init), Run(c, INITIAL, events);
      forall t | t in s'.replies
        ensures Sent(s'.procs, t) && Genuine(c, events, t, PacketOf(s'.procs, t).message, s'.replies[t].message)
      {
        NewReply(c, s, e, t);
        StepContinues(c, s, e);
        ContinuedPacket(s.procs, s'.procs, t);
        if t in s.replies && s'.replies[t] == s.replies[t] {
          GenuineLasts(c, init, [e], t, PacketOf(s.procs, t).message, s.replies[t].message);
        } else {
          LastEventAnswers(c, init, e, t, s, s');
        }
      }
    }
  }

  lemma LastEventAnswers(c: Crypto, init: seq<Event>, e: Event, t: Tag, s: System, s': System)
    requires s == Run(c, INITIAL, init) && s' == Run(c, INITIAL, init + [e])
    requires e.Handle? && t in s.inbox && t in s'.replies
    requires Respond(s.db, s.inbox[t].message, e.env) == Responded(s'.db, Some(s'.replies[t].message))
    ensures Genuine(c, init + [e], t, s.inbox[t].message, s'.replies[t].message)
  {
    var events := init + [e];
    assert events[..|init|] == init && events[..|init| + 1] == events;
    assert At(c, events, |init|) == s && At(c, events, |init| + 1) == s';
    assert AnsweredAt(c, events, |init|, t, s.inbox[t].message, s'.replies[t].message);
  }

  // ---------------------------------------------------------------- answers accepted

  ghost predicate ResultsGenuine(c: Crypto, events: seq<Event>, procs: seq<Proc>) {
    forall t :: Sent(procs, t) && ResultOf(procs, t).Answer? ==>
      Genuine(c, events, t, PacketOf(procs, t).message, ResultOf(procs, t).message)
  }

  /** A newly accepted answer is the one in flight to the same call. */
  lemma NewResult(c: Crypto, s: System, e: Event, t: Tag)
    requires Linked(s) && DistinctIds(s.procs)
    requires Sent(Step(c, s, e).procs, t) && ResultOf(Step(c, s, e).procs, t).Answer?
    ensures Sent(s.procs, t) && PacketOf(Step(c, s, e).procs, t) == PacketOf(s.procs, t)
    ensures var result := ResultOf(Step(c, s, e).procs, t);
            result == ResultOf(s.procs, t) || (t in s.replies && result.message == s.replies[t].message)
  {
    if e.Deliver? {
      DeliveryChanges(s, e.tag, e.pid, t);
      if ResultOf(Step(c, s, e).procs, t) != ResultOf(s.procs, t) {
        AcceptedAnswerIsOwn(s, e.tag, e.pid);
      }
    } else {
      ResultsOnlySettle(c, s, e, t);
    }
    StepContinues(c, s, e);
    ContinuedPacket(s.procs, Step(c, s, e).procs, t);
  }

  lemma {:induction false} ResultsComeFromHandlers(c: Crypto, events: seq<Event>)
    requires FreshIds(events)
    ensures ResultsGenuine(c, events, Run(c, INITIAL, events).procs)
  {
    if events != [] {
      var init, e := events[..|events| - 1], events[|events| - 1];
      assert events == init + [e];
      ResultsComeFromHandlers(c, init);
      RepliesComeFromHandlers(c, init);
      InvFromTheStart(c, init);
      FreshIdsStayDistinct(c, init);
      var s, procs' := Run(c, INITIAL, init), Run(c, INITIAL, events).procs;
      forall t | Sent(procs', t) && ResultOf(procs', t).Answer?
        ensures Genuine(c, events, t, PacketOf(procs', t).message, ResultOf(procs', t).message)
      {
        NewResult(c, s, e, t);
        GenuineLasts(c, init, [e], t, PacketOf(procs', t).message, ResultOf(procs', t).message);
      }
    }
  }

  /**
   With message identifiers that do not repeat, an accepted answer is the core's to that very call:
   at some event of the run the call was in the core's socket, the answer is the handler's over the
   tables of that moment, and what the handler left was in place right after.
   */
  lemma AcceptedAnswerIsGenuine(c: Crypto, events: seq<Event>, t: Tag)
    requires FreshIds(events) && Sent(Run(c, INITIAL, events).procs, t)
    requires ResultOf(Run(c, INITIAL, events).procs, t).Answer?
    ensures var procs := Run(c, INITIAL, events).procs;
            exists k :: 0 <= k < |events|
                     && AnsweredAt(c, events, k, t, PacketOf(procs, t).message, ResultOf(procs, t).message)
  {
    ResultsComeFromHandlers(c, events);
  }

  // ---------------------------------------------------------------- what answers are worth later

  lemma {:induction false} AccountsOnlyCome(c: Crypto, s: System, events: seq<Event>)
    ensures Ids(s.db.accounts) <= Ids(Run(c, s, events).db.accounts)
  {
    if events != [] {
      AccountsOnlyCome(c, s, events[..|events| - 1]);
      StepKeepsIds(c, Run(c, s, events[..|events| - 1]), events[|events| - 1]);
    }
  }

  lemma {:induction false} TablesGrowAlong(c: Crypto, events: seq<Event>, k: nat)
    requires k <= |events|
    ensures At(c, events, k).db.ledger <= Run(c, INITIAL, events).db.ledger
    ensures Ids(At(c, events, k).db.accounts) <= Ids(Run(c, INITIAL, events).db.accounts)
  {
    var before, after := events[..k], events[k..];
    assert before + after == events;
    RunOfConcat(c, INITIAL, before, after);
    TablesOnlyGrow(c, Run(c, INITIAL, before), after);
    AccountsOnlyCome(c, Run(c, INITIAL, before), after);
  }

  /** The tables an accepted answer was made from and those it left, as a part of all later ones. */
  lemma AnsweredFrom(c: Crypto, before: seq<Event>, after: seq<Event>, t: Tag) returns (db: Db, env: Env, left: Db)
    requires FreshIds(before) && Sent(Run(c, INITIAL, before).procs, t)
    requires ResultOf(Run(c, INITIAL, before).procs, t).Answer?
    ensures var procs, later := Run(c, INITIAL, before).procs, Run(c, INITIAL, before + after).db;
            && Respond(db, PacketOf(procs, t).message, env) == Responded(left, Some(ResultOf(procs, t).message))
            && db.ledger <= later.ledger && UniqueTxIds(later.ledger)
            && Ids(left.accounts) <= Ids(later.accounts)
  {
    AcceptedAnswerIsGenuine(c, before, t);
    var procs := Run(c, INITIAL, before).procs;
    GenuineLasts(c, before, after, t, PacketOf(procs, t).message, ResultOf(procs, t).message);
    db, env, left := EarlierTables(c, before + after, t, PacketOf(procs, t).message, ResultOf(procs, t).message);
  }

  lemma LedgerIdsStayUnique(c: Crypto, events: seq<Event>)
    ensures UniqueTxIds(Run(c, INITIAL, events).db.ledger)
  {
    InvFromTheStart(c, events);
  }

  lemma WaitingMeansSent(c: Crypto, events: seq<Event>, t: Tag)
    requires t in Run(c, INITIAL, events).inbox
    ensures Sent(Run(c, INITIAL, events).procs, t)
  {
    InvFromTheStart(c, events);
  }

  /** The states before and after the event that made the answer. */
  lemma HandlingMoment(c: Crypto, events: seq<Event>, t: Tag, message: ClientMessage, answer: ServerMessage)
    returns (k: nat, db: Db, env: Env, left: Db)
    requires Genuine(c, events, t, message, answer)
    ensures k < |events| && t in At(c, events, k).inbox
    ensures db == At(c, events, k).db && left == At(c, events, k + 1).db
    ensures Respond(db, message, env) == Responded(left, Some(answer))
  {
    k :| 0 <= k < |events| && AnsweredAt(c, events, k, t, message, answer);
    db, env, left := At(c, events, k).db, events[k].env, At(c, events, k + 1).db;
  }

  lemma EarlierTables(c: Crypto, events: seq<Event>, t: Tag, message: ClientMessage, answer: ServerMessage)
    returns (db: Db, env: Env, left: Db)
    requires Genuine(c, events, t, message, answer)
    ensures Respond(db, message, env) == Responded(left, Some(answer))
    ensures var later := Run(c, INITIAL, events).db;
            && db.ledger <= later.ledger && UniqueTxIds(later.ledger)
            && Ids(left.accounts) <= Ids(later.accounts)
  {
    var k;
    k, db, env, left := HandlingMoment(c, events, t, message, answer);
    TablesGrowAlong(c, events, k);
    TablesGrowAlong(c, events, k + 1);
    LedgerIdsStayUnique(c, events);
  }

  /** An account whose creation a client was told of is in the table, ever after. */
  lemma AcceptedAccountExists(c: Crypto, before: seq<Event>, after: seq<Event>, t: Tag, r: AccountCreated)
    requires FreshIds(before) && Sent(Run(c, INITIAL, before).procs, t)
    requires ResultOf(Run(c, INITIAL, before).procs, t) == Answer(CreateNewAccountResponse(Ok(r)))
    ensures r.id in Ids(Run(c, INITIAL, before + after).db.accounts)
  {
    var db, env, left := AnsweredFrom(c, before, after, t);
    IdsOfAppended(db.accounts, Account(env.newId, env.created, 0));
  }

  /** A row that a client was told is read the same by exactly its two parties, ever after. */
  lemma AcceptedRowStays(
    c: Crypto, before: seq<Event>, after: seq<Event>, t: Tag, account: Uuid, id: Uuid, row: Transaction, other: Uuid)
    requires FreshIds(before) && Sent(Run(c, INITIAL, before).procs, t)
    requires PacketOf(Run(c, INITIAL, before).procs, t).message == GetTransaction(account, id)
    requires ResultOf(Run(c, INITIAL, before).procs, t) == Answer(GetTransactionResponse(Ok(row)))
    ensures PartyTo(row, account)
    ensures PartyTo(row, other) <==> FetchTransaction(Run(c, INITIAL, before + after).db, other, id) == Ok(row)
  {
    var db, env, left := AnsweredFrom(c, before, after, t);
    CommittedRowIsShared(db, Run(c, INITIAL, before + after).db, account, other, id, row);
  }

  /**
   An accepted history is, for some prefix of every later ledger, exactly the account's rows of that
   prefix in the time range, each as often as it is there.
   */
  lemma AcceptedHistoryIsOfPrefix(
    c: Crypto, before: seq<Event>, after: seq<Event>, t: Tag,
    account: Uuid, begin: Time, end: Time, rows: seq<Transaction>)
    returns (n: nat)
    requires FreshIds(before) && Sent(Run(c, INITIAL, before).procs, t)
    requires PacketOf(Run(c, INITIAL, before).procs, t).message == GetTransactions(account, begin, end)
    requires ResultOf(Run(c, INITIAL, before).procs, t) == Answer(GetTransactionsResponse(Ok(rows)))
    ensures var ledger := Run(c, INITIAL, before + after).db.ledger;
            && n <= |ledger|
            && forall row :: multiset(rows)[row]
                             == if Selected(row, account, begin, end) then multiset(ledger[..n])[row] else 0
  {
    var db, env, left := AnsweredFrom(c, before, after, t);
    n := |db.ledger|;
    forall row
      ensures multiset(rows)[row] == if Selected(row, account, begin, end) then multiset(db.ledger)[row] else 0
    {
      SelectCounts(VisitOrder(db.ledger, env.scan), account, begin, end, row);
    }
    assert Run(c, INITIAL, before + after).db.ledger[..n] == db.ledger;
  }

  /** An accepted account list is the whole table as it was at some moment after the call was sent. */
  lemma AcceptedListIsPast(c: Crypto, events: seq<Event>, t: Tag, rows: seq<Account>) returns (k: nat)
    requires FreshIds(events) && Sent(Run(c, INITIAL, events).procs, t)
    requires ResultOf(Run(c, INITIAL, events).procs, t) == Answer(GetAccountsResponse(Ok(rows)))
    ensures k < |events| && Sent(At(c, events, k).procs, t) && rows == At(c, events, k).db.accounts
  {
    AcceptedAnswerIsGenuine(c, events, t);
    var m := PacketOf(Run(c, INITIAL, events).procs, t).message;
    var db, env, left;
    k, db, env, left := HandlingMoment(c, events, t, m, GetAccountsResponse(Ok(rows)));
    WaitingMeansSent(c, events[..k], t);
  }

  // ---------------------------------------------------------------- snapshots

  /** The stipend's list is the eligible part of the accounts table before event k. */
  ghost predicate SnapshotAt(c: Crypto, events: seq<Event>, p: Proc, k: nat)
    requires p.job.Stipend? && k <= |events|
  {
    p.snapshot == Eligible(At(c, events, k).db.accounts, p.job.minimum)
  }

  ghost predicate SnapshotTaken(c: Crypto, events: seq<Event>, p: Proc)
    requires p.job.Stipend?
  {
    exists k :: 0 <= k <= |events| && SnapshotAt(c, events, p, k)
  }

  ghost predicate SnapshotsTaken(c: Crypto, events: seq<Event>, procs: seq<Proc>) {
    forall i :: 0 <= i < |procs| && procs[i].job.Stipend? && procs[i].snapshot != [] ==>
      SnapshotTaken(c, events, procs[i])
  }

  lemma SnapshotLasts(c: Crypto, events: seq<Event>, more: seq<Event>, p: Proc)
    requires p.job.Stipend? && SnapshotTaken(c, events, p)
    ensures SnapshotTaken(c, events + more, p)
  {
    var k :| 0 <= k <= |events| && SnapshotAt(c, events, p, k);
    assert (events + more)[..k] == events[..k];
    assert SnapshotAt(c, events + more, p, k);
  }

  lemma DeliveredSnapshot(s: System, tag: Tag, pid: nat, i: nat)
    requires var procs' := StepDeliver(s, tag, pid).procs; i < |procs'| && procs'[i].job.Stipend?
    ensures var q := StepDeliver(s, tag, pid).procs[i];
            || (i < |s.procs| && s.procs[i].job == q.job && s.procs[i].snapshot == q.snapshot)
            || (&& tag in s.replies && s.replies[tag].message.GetAccountsResponse?
                && s.replies[tag].message.accounts.Ok?
                && q.snapshot == Eligible(s.replies[tag].message.accounts.value, q.job.minimum))
  {
  }

  lemma OtherEventsKeepSnapshots(c: Crypto, s: System, e: Event, i: nat)
    requires !e.Deliver?
    requires var procs' := Step(c, s, e).procs; i < |procs'| && procs'[i].snapshot != []
    ensures i < |s.procs| && s.procs[i].job == Step(c, s, e).procs[i].job
    ensures s.procs[i].snapshot == Step(c, s, e).procs[i].snapshot
  {
  }

  /** Only an account list in flight makes a new snapshot, filtered. */
  lemma NewSnapshot(c: Crypto, s: System, e: Event, i: nat)
    requires var procs' := Step(c, s, e).procs; i < |procs'| && procs'[i].job.Stipend? && procs'[i].snapshot != []
    ensures var q := Step(c, s, e).procs[i];
            || (i < |s.procs| && s.procs[i].job == q.job && s.procs[i].snapshot == q.snapshot)
            || (&& e.Deliver? && e.tag in s.replies && s.replies[e.tag].message.GetAccountsResponse?
                && s.replies[e.tag].message.accounts.Ok?
                && q.snapshot == Eligible(s.replies[e.tag].message.accounts.value, q.job.minimum))
  {
    if e.Deliver? {
      DeliveredSnapshot(s, e.tag, e.pid, i);
    } else {
      OtherEventsKeepSnapshots(c, s, e, i);
    }
  }

  /** Whatever client it reaches, an account list in flight is the table of some moment. */
  lemma ListInFlightIsPast(c: Crypto, events: seq<Event>, tag: Tag) returns (k: nat)
    requires var s := Run(c, INITIAL, events); tag in s.replies && s.replies[tag].message.GetAccountsResponse?
    ensures k <= |events|
    ensures Run(c, INITIAL, events).replies[tag].message == GetAccountsResponse(Ok(At(c, events, k).db.accounts))
  {
    RepliesComeFromHandlers(c, events);
    var s := Run(c, INITIAL, events);
    var db, env, left;
    k, db, env, left := HandlingMoment(c, events, tag, PacketOf(s.procs, tag).message, s.replies[tag].message);
  }

  lemma {:induction false} StipendSnapshotsAreTaken(c: Crypto, events: seq<Event>)
    ensures SnapshotsTaken(c, events, Run(c, INITIAL, events).procs)
  {
    if events != [] {
      var init, e := events[..|events| - 1], events[|events| - 1];
      assert events == init + [e];
      StipendSnapshotsAreTaken(c, init);
      var s, procs' := Run(c, INITIAL, init), Run(c, INITIAL, events).procs;
      forall i | 0 <= i < |procs'| && procs'[i].job.Stipend? && procs'[i].snapshot != []
        ensures SnapshotTaken(c, events, procs'[i])
      {
        NewSnapshot(c, s, e, i);
        if i < |s.procs| && s.procs[i].job == procs'[i].job && s.procs[i].snapshot == procs'[i].snapshot {
          SnapshotLasts(c, init, [e], s.procs[i]);
          var k :| 0 <= k <= |events| && SnapshotAt(c, events, s.procs[i], k);
          assert SnapshotAt(c, events, procs'[i], k);
        } else {
          var k := ListInFlightIsPast(c, init, e.tag);
          assert SnapshotAt(c, init, procs'[i], k);
          SnapshotLasts(c, init, [e], procs'[i]);
        }
      }
    }
  }

  /** The list a stipend run works off is the eligible part of a table the core held. */
  lemma SnapshotIsPast(c: Crypto, events: seq<Event>, pid: nat)
    requires var s := Run(c, INITIAL, events); pid < |s.procs| && s.procs[pid].job.Stipend?
    ensures var p := Run(c, INITIAL, events).procs[pid];
            p.snapshot != [] ==>
              exists k :: 0 <= k <= |events|
                       && p.snapshot == Eligible(At(c, events, k).db.accounts, p.job.minimum)
  {
    StipendSnapshotsAreTaken(c, events);
    var p := Run(c, INITIAL, events).procs[pid];
    if p.snapshot != [] {
      var k :| 0 <= k <= |events| && SnapshotAt(c, events, p, k);
      assert p.snapshot == Eligible(At(c, events, k).db.accounts, p.job.minimum);
    }
  }
}
