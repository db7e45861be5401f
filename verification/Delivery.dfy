/**
 What an answer tells a client about the ledger, when message identifiers do not repeat:
 a receipt means exactly one row, a refusal means none, silence means at most one.
 */
module Delivery {
  import opened Basics
  import opened Messages
  import opened Tables
  import opened Bookkeeping
  import opened Auth
  import opened Machine
  import opened Safety
  import opened Guarantees

  // ---------------------------------------------------------------- identifiers

  ghost predicate DistinctIds(procs: seq<Proc>) {
    forall t, u :: Sent(procs, t) && Sent(procs, u) && t != u ==> PacketOf(procs, t).id != PacketOf(procs, u).id
  }

  ghost predicate UnusedId(procs: seq<Proc>, id: Uuid) {
    forall t :: Sent(procs, t) ==> PacketOf(procs, t).id != id
  }

  /** No two sends of the run draw the same message identifier. */
  ghost predicate FreshIds(events: seq<Event>) {
    forall i, j :: 0 <= i < j < |events| && events[i].Send? && events[j].Send? ==>
      events[i].message != events[j].message
  }

  ghost predicate IdsComeFrom(procs: seq<Proc>, events: seq<Event>) {
    forall t :: Sent(procs, t) ==>
      exists i :: 0 <= i < |events| && events[i].Send? && events[i].message == PacketOf(procs, t).id
  }

  lemma SendAddsPacket(s: System, pid: nat, message: Uuid, t: Tag)
    requires Sent(StepSend(s, pid, message).procs, t) && !Sent(s.procs, t)
    ensures pid < |s.procs| && t == Tag(pid, |s.procs[pid].log|)
    ensures PacketOf(StepSend(s, pid, message).procs, t).id == message
  {
  }

  lemma OthersAddNothing(c: Crypto, s: System, e: Event, t: Tag)
    requires !e.Send? && Sent(Step(c, s, e).procs, t)
    ensures Sent(s.procs, t)
  {
  }

  /** Only a send makes a new packet, and only one, with the identifier it drew. */
  lemma StepAddsPackets(c: Crypto, s: System, e: Event, t: Tag)
    requires Sent(Step(c, s, e).procs, t)
    ensures Sent(s.procs, t) ==> PacketOf(Step(c, s, e).procs, t) == PacketOf(s.procs, t)
    ensures !Sent(s.procs, t) ==>
              && e.Send? && e.pid < |s.procs| && t == Tag(e.pid, |s.procs[e.pid].log|)
              && PacketOf(Step(c, s, e).procs, t).id == e.message
  {
    if Sent(s.procs, t) {
      StepContinues(c, s, e);
      ContinuedPacket(s.procs, Step(c, s, e).procs, t);
    } else if e.Send? {
      SendAddsPacket(s, e.pid, e.message, t);
    } else {
      OthersAddNothing(c, s, e, t);
    }
  }

  lemma StepKeepsIdsDistinct(c: Crypto, s: System, e: Event)
    requires DistinctIds(s.procs)
    requires e.Send? ==> UnusedId(s.procs, e.message)
    ensures DistinctIds(Step(c, s, e).procs)
  {
    var procs' := Step(c, s, e).procs;
    forall t, u | Sent(procs', t) && Sent(procs', u) && t != u
      ensures PacketOf(procs', t).id != PacketOf(procs', u).id
    {
      StepAddsPackets(c, s, e, t);
      StepAddsPackets(c, s, e, u);
    }
  }

  lemma {:induction false} FreshIdsStayDistinct(c: Crypto, events: seq<Event>)
    requires FreshIds(events)
    ensures DistinctIds(Run(c, INITIAL, events).procs)
    ensures IdsComeFrom(Run(c, INITIAL, events).procs, events)
  {
    if events != [] {
      var init, e := events[..|events| - 1], events[|events| - 1];
      FreshIdsStayDistinct(c, init);
      var s := Run(c, INITIAL, init);
      if e.Send? {
        forall t | Sent(s.procs, t) ensures PacketOf(s.procs, t).id != e.message {
          var i :| 0 <= i < |init| && init[i].Send? && init[i].message == PacketOf(s.procs, t).id;
          assert events[i] == init[i];
        }
      }
      StepKeepsIdsDistinct(c, s, e);
      var procs' := Step(c, s, e).procs;
      forall t | Sent(procs', t)
        ensures exists i :: 0 <= i < |events| && events[i].Send? && events[i].message == PacketOf(procs', t).id
      {
        StepAddsPackets(c, s, e, t);
        if Sent(s.procs, t) {
          var i :| 0 <= i < |init| && init[i].Send? && init[i].message == PacketOf(s.procs, t).id;
          assert events[i] == init[i];
        } else {
          assert events[|events| - 1].message == PacketOf(procs', t).id;
        }
      }
    }
  }

  // ---------------------------------------------------------------- truth of answers

  /** The receipt states row k, and the sender's balance as the ledger up to row k gives it. */
  predicate ReceiptOf(seeded: bool, ledger: seq<Transaction>, k: nat, r: Receipt)
    requires k < |ledger|
  {
    && r.id == ledger[k].id && r.timestamp == ledger[k].timestamp && r.fee == ledger[k].fee
    && r.sender == ledger[k].sender && r.receiver == ledger[k].receiver
    && r.senderFunds == Balance(seeded, ledger[..k + 1], r.sender)
  }

  ghost predicate HasReceipt(s: System, t: Tag, r: Receipt)
    requires |s.origin| == |s.db.ledger|
  {
    exists k :: 0 <= k < |s.origin| && s.origin[k] == t && ReceiptOf(s.seeded, s.db.ledger, k, r)
  }

  /** What the answer to call t says about the ledger is so. */
  ghost predicate Truthful(s: System, t: Tag, m: ServerMessage)
    requires |s.origin| == |s.db.ledger|
  {
    && (forall r :: m == CreateTransactionResponse(Ok(r)) ==> HasReceipt(s, t, r))
    && (m.CreateTransactionResponse? && m.receipt.Err? ==> t !in s.origin)
  }

  function ResultOf(procs: seq<Proc>, t: Tag): CallResult
    requires Sent(procs, t)
  {
    procs[t.pid].log[t.call].result
  }

  ghost predicate AnswersTrue(s: System)
    requires |s.origin| == |s.db.ledger|
  {
    && (forall t :: t in s.replies ==> Truthful(s, t, s.replies[t].message))
    && (forall t :: Sent(s.procs, t) && ResultOf(s.procs, t).Answer? ==>
          t !in s.inbox && Truthful(s, t, ResultOf(s.procs, t).message))
  }

  /** Rows and their origins stay; a call that is not in the inbox gets no row any more. */
  ghost predicate Extends(s: System, s': System)
  {
    && |s.origin| == |s.db.ledger| && |s'.origin| == |s'.db.ledger|
    && s.origin <= s'.origin && s.db.ledger <= s'.db.ledger
    && (s.origin != [] ==> s'.seeded == s.seeded)
    && (forall t :: t in s'.origin ==> t in s.origin || t in s.inbox)
    && (forall t :: t in s'.inbox ==> t in s.inbox || !Sent(s.procs, t))
  }

  lemma TruthLasts(s: System, s': System, t: Tag, m: ServerMessage)
    requires Extends(s, s') && Truthful(s, t, m) && t !in s.inbox
    ensures Truthful(s', t, m)
  {
    if m.CreateTransactionResponse? && m.receipt.Ok? {
      var r := m.receipt.value;
      assert HasReceipt(s, t, r);
      var k :| 0 <= k < |s.origin| && s.origin[k] == t && ReceiptOf(s.seeded, s.db.ledger, k, r);
      assert s'.origin[k] == t && s'.db.ledger[k] == s.db.ledger[k];
      assert s'.db.ledger[..k + 1] == s.db.ledger[..k + 1];
      assert ReceiptOf(s'.seeded, s'.db.ledger, k, r);
    }
  }

  lemma StepExtends(c: Crypto, s: System, e: Event)
    requires Inv(c, s)
    ensures Extends(s, Step(c, s, e))
  {
    StepKeepsInv(c, s, e);
    StepGrowsTables(c, s, e);
    StepMovesTags(c, s, e);
    StepKeepsSound(c, s, e);
    if s.origin != [] {
      assert s.seeded;
    }
  }

  lemma StepMovesTags(c: Crypto, s: System, e: Event)
    ensures s.origin <= Step(c, s, e).origin
    ensures forall t :: t in Step(c, s, e).origin ==> t in s.origin || t in s.inbox
    ensures forall t :: t in Step(c, s, e).inbox ==> t in s.inbox || !Sent(s.procs, t)
  {
  }

  /** A handler's answer is true of the tables it leaves. */
  lemma RespondIsTruthful(seeded: bool, db: Db, m: ClientMessage, env: Env)
    requires Sound(seeded, db)
    ensures var done := Respond(db, m, env);
            done.message.Some? && done.message.value.CreateTransactionResponse? ==>
              if done.message.value.receipt.Ok? then
                && |done.db.ledger| == |db.ledger| + 1
                && ReceiptOf(seeded, done.db.ledger, |db.ledger|, done.message.value.receipt.value)
              else
                done.db.ledger == db.ledger
  {
    if m.CreateTransaction? {
      var t := Transaction(env.newId, env.created, m.sender, m.receiver, m.amount, 0);
      if FirstFailure(db, t).None? {
        ReceiptIsTrue(seeded, db, t, env.now);
        var after := Transfer(db, t, env.now).db.ledger;
        assert after[..|db.ledger| + 1] == after;
      }
    }
  }

  /** Old answers last; whatever answer is new must be true by itself. */
  lemma ExtendingKeepsTruth(s: System, s': System)
    requires Extends(s, s') && AnswersTrue(s) && RepliesLinked(s)
    requires forall t :: t in s'.replies ==>
               (t in s.replies && s'.replies[t] == s.replies[t]) || Truthful(s', t, s'.replies[t].message)
    requires forall t :: Sent(s'.procs, t) && ResultOf(s'.procs, t).Answer? ==>
               || (Sent(s.procs, t) && ResultOf(s'.procs, t) == ResultOf(s.procs, t))
               || (Sent(s.procs, t) && t !in s.inbox && Truthful(s, t, ResultOf(s'.procs, t).message))
    ensures AnswersTrue(s')
  {
    forall t | t in s'.replies ensures Truthful(s', t, s'.replies[t].message) {
      if t in s.replies && s'.replies[t] == s.replies[t] {
        TruthLasts(s, s', t, s.replies[t].message);
      }
    }
    forall t | Sent(s'.procs, t) && ResultOf(s'.procs, t).Answer?
      ensures t !in s'.inbox && Truthful(s', t, ResultOf(s'.procs, t).message)
    {
      TruthLasts(s, s', t, ResultOf(s'.procs, t).message);
    }
  }

  lemma NewAnswerKeepsTruth(s: System, s': System, tag: Tag)
    requires Extends(s, s') && AnswersTrue(s) && RepliesLinked(s) && s'.procs == s.procs
    requires s'.replies == s.replies
             || (tag in s'.replies && s'.replies == s.replies[tag := s'.replies[tag]]
                 && Truthful(s', tag, s'.replies[tag].message))
    ensures AnswersTrue(s')
  {
    ExtendingKeepsTruth(s, s');
  }

  lemma HandleReplies(s: System, tag: Tag, env: Env, dies: bool)
    ensures var s' := StepHandle(s, tag, env, dies);
            s'.procs == s.procs
            && (s'.replies == s.replies
                || (&& s' == StepHandle(s, tag, env, false) && s.running && tag in s.inbox
                    && s.inbox[tag].v == VERSION && Respond(s.db, s.inbox[tag].message, env).message.Some?
                    && tag in s'.replies && s'.replies == s.replies[tag := s'.replies[tag]]))
  {
  }

  lemma HandleKeepsTruth(c: Crypto, s: System, s': System, tag: Tag, env: Env, dies: bool)
    requires Inv(c, s) && AnswersTrue(s)
    requires s' == StepHandle(s, tag, env, dies) && Extends(s, s')
    ensures AnswersTrue(s')
  {
    HandleReplies(s, tag, env, dies);
    if s'.replies != s.replies {
      AnswerIsTruthful(c, s, tag, env);
    }
    NewAnswerKeepsTruth(s, s', tag);
  }

  lemma AnswerIsTruthful(c: Crypto, s: System, tag: Tag, env: Env)
    requires Inv(c, s) && s.running && tag in s.inbox && s.inbox[tag].v == VERSION
    requires Respond(s.db, s.inbox[tag].message, env).message.Some?
    ensures var s' := StepHandle(s, tag, env, false);
            |s'.origin| == |s'.db.ledger| && tag in s'.replies && Truthful(s', tag, s'.replies[tag].message)
  {
    HandleKeepsLinked(s, tag, env, false);
    RespondIsTruthful(s.seeded, s.db, s.inbox[tag].message, env);
    RespondAddsAtMostOneRow(s.db, s.inbox[tag].message, env);
    var s' := StepHandle(s, tag, env, false);
    var m := s'.replies[tag].message;
    if m.CreateTransactionResponse? && m.receipt.Ok? {
      assert s'.origin[|s.origin|] == tag;
      assert HasReceipt(s', tag, m.receipt.value);
    }
  }

  // ---------------------------------------------------------------- nobody accepts another's answer

  /** With distinct identifiers the answer a client accepts is the one to its own last call. */
  lemma AcceptedAnswerIsOwn(s: System, tag: Tag, pid: nat)
    requires Linked(s) && DistinctIds(s.procs)
    requires tag in s.replies && pid < |s.procs| && s.procs[pid].log != []
    requires Accept(s.procs[pid].log[|s.procs[pid].log| - 1].packet, s.replies[tag]).Some?
    ensures tag == Tag(pid, |s.procs[pid].log| - 1)
  {
    assert Sent(s.procs, Tag(pid, |s.procs[pid].log| - 1));
    assert Sent(s.procs, tag);
  }

  lemma SendRecordsNoAnswer(s: System, pid: nat, message: Uuid, t: Tag)
    requires Sent(StepSend(s, pid, message).procs, t) && ResultOf(StepSend(s, pid, message).procs, t).Answer?
    ensures Sent(s.procs, t) && ResultOf(s.procs, t) == ResultOf(StepSend(s, pid, message).procs, t)
  {
  }

  lemma TimeOutRecordsNoAnswer(s: System, pid: nat, t: Tag)
    requires Sent(StepTimeOut(s, pid).procs, t) && ResultOf(StepTimeOut(s, pid).procs, t).Answer?
    ensures Sent(s.procs, t) && ResultOf(s.procs, t) == ResultOf(StepTimeOut(s, pid).procs, t)
  {
  }

  lemma ResultsOnlySettle(c: Crypto, s: System, e: Event, t: Tag)
    requires !e.Deliver?
    requires Sent(Step(c, s, e).procs, t) && ResultOf(Step(c, s, e).procs, t).Answer?
    ensures Sent(s.procs, t) && ResultOf(s.procs, t) == ResultOf(Step(c, s, e).procs, t)
  {
    if e.Send? {
      SendRecordsNoAnswer(s, e.pid, e.message, t);
    } else if e.TimeOut? {
      TimeOutRecordsNoAnswer(s, e.pid, t);
    }
  }

  /** Every result recorded so far is an old one, or true and no longer changing. */
  ghost predicate ResultsTrue(s: System, procs': seq<Proc>)
    requires |s.origin| == |s.db.ledger|
  {
    forall t :: Sent(procs', t) && ResultOf(procs', t).Answer? ==>
      Sent(s.procs, t) && t !in s.inbox && Truthful(s, t, ResultOf(procs', t).message)
  }

  lemma DeliveredResults(s: System, tag: Tag, pid: nat)
    requires Linked(s) && AnswersTrue(s) && DistinctIds(s.procs)
    ensures ResultsTrue(s, StepDeliver(s, tag, pid).procs)
  {
    var procs' := StepDeliver(s, tag, pid).procs;
    forall t | Sent(procs', t) && ResultOf(procs', t).Answer?
      ensures Sent(s.procs, t) && t !in s.inbox && Truthful(s, t, ResultOf(procs', t).message)
    {
      DeliveredResult(s, tag, pid, t);
    }
  }

  lemma DeliveredReplies(s: System, tag: Tag, pid: nat)
    ensures var s' := StepDeliver(s, tag, pid); s'.replies == s.replies || s'.replies == s.replies - {tag}
  {
  }

  lemma TakenAnswerKeepsTruth(s: System, s': System, tag: Tag)
    requires Extends(s, s') && AnswersTrue(s) && RepliesLinked(s)
    requires s'.replies == s.replies || s'.replies == s.replies - {tag}
    requires ResultsTrue(s, s'.procs)
    ensures AnswersTrue(s')
  {
    ExtendingKeepsTruth(s, s');
  }

  lemma DeliverKeepsTruth(c: Crypto, s: System, s': System, tag: Tag, pid: nat)
    requires Inv(c, s) && AnswersTrue(s) && DistinctIds(s.procs)
    requires s' == StepDeliver(s, tag, pid) && Extends(s, s')
    ensures AnswersTrue(s')
  {
    DeliveredResults(s, tag, pid);
    DeliveredReplies(s, tag, pid);
    TakenAnswerKeepsTruth(s, s', tag);
  }

  /** A delivery changes the result of the last call of one client, and to an answer only if accepted. */
  lemma DeliveryChanges(s: System, tag: Tag, pid: nat, t: Tag)
    requires Sent(StepDeliver(s, tag, pid).procs, t)
    ensures Sent(s.procs, t)
    ensures var result := ResultOf(StepDeliver(s, tag, pid).procs, t);
            || result == ResultOf(s.procs, t)
            || (&& tag in s.replies && t.pid == pid && t.call == |s.procs[pid].log| - 1
                && result == match Accept(PacketOf(s.procs, t), s.replies[tag])
                             case Some(m) => Answer(m)
                             case None => NoAnswer)
  {
  }

  lemma DeliveredResult(s: System, tag: Tag, pid: nat, t: Tag)
    requires Linked(s) && AnswersTrue(s) && DistinctIds(s.procs)
    requires Sent(StepDeliver(s, tag, pid).procs, t) && ResultOf(StepDeliver(s, tag, pid).procs, t).Answer?
    ensures Sent(s.procs, t) && t !in s.inbox
    ensures Truthful(s, t, ResultOf(StepDeliver(s, tag, pid).procs, t).message)
  {
    DeliveryChanges(s, tag, pid, t);
    if ResultOf(StepDeliver(s, tag, pid).procs, t) != ResultOf(s.procs, t) {
      AcceptedAnswerIsOwn(s, tag, pid);
    }
  }

  lemma RepliesOnlyGo(c: Crypto, s: System, e: Event)
    requires !e.Handle?
    ensures forall t :: t in Step(c, s, e).replies ==> t in s.replies && Step(c, s, e).replies[t] == s.replies[t]
  {
  }

  lemma OtherStepsKeepTruth(c: Crypto, s: System, s': System, e: Event)
    requires Inv(c, s) && AnswersTrue(s) && s' == Step(c, s, e) && Linked(s')
    requires !e.Deliver? && !e.Handle?
    ensures AnswersTrue(s')
  {
    StepExtends(c, s, e);
    RepliesOnlyGo(c, s, e);
    forall t | Sent(s'.procs, t) && ResultOf(s'.procs, t).Answer?
      ensures Sent(s.procs, t) && ResultOf(s'.procs, t) == ResultOf(s.procs, t)
    {
      ResultsOnlySettle(c, s, e, t);
    }
    ExtendingKeepsTruth(s, s');
  }

  lemma StepKeepsTruth(c: Crypto, s: System, s': System, e: Event)
    requires Inv(c, s) && AnswersTrue(s) && DistinctIds(s.procs) && s' == Step(c, s, e)
    ensures Linked(s') && AnswersTrue(s')
  {
    StepKeepsLinked(c, s, e);
    StepExtends(c, s, e);
    if e.Handle? {
      HandleKeepsTruth(c, s, s', e.tag, e.env, e.dies);
    } else if e.Deliver? {
      DeliverKeepsTruth(c, s, s', e.tag, e.pid);
    } else {
      OtherStepsKeepTruth(c, s, s', e);
    }
  }

  lemma {:induction false} AnswersStayTrue(c: Crypto, events: seq<Event>)
    requires FreshIds(events)
    ensures Inv(c, Run(c, INITIAL, events)) && AnswersTrue(Run(c, INITIAL, events))
  {
    InvFromTheStart(c, events);
    if events != [] {
      AnswersStayTrue(c, events[..|events| - 1]);
      FreshIdsStayDistinct(c, events[..|events| - 1]);
      StepKeepsTruth(c, Run(c, INITIAL, events[..|events| - 1]), Run(c, INITIAL, events), events[|events| - 1]);
    }
  }

  // ---------------------------------------------------------------- the client's view

  lemma {:induction false} DistinctMeansOnce<T>(a: seq<T>, x: T)
    requires forall j, k :: 0 <= j < k < |a| ==> a[j] != a[k]
    ensures multiset(a)[x] == if x in a then 1 else 0
  {
    if a != [] {
      var init, last := a[..|a| - 1], a[|a| - 1];
      assert a == init + [last];
      DistinctMeansOnce(init, x);
    }
  }

  /** The receipt states row k, and the sender's balance as the ledger replayed up to row k gives it. */
  predicate StatesRow(opening: map<Uuid, int>, ledger: seq<Transaction>, k: nat, r: Receipt)
    requires k < |ledger|
  {
    && r.id == ledger[k].id && r.timestamp == ledger[k].timestamp && r.fee == ledger[k].fee
    && r.sender == ledger[k].sender && r.receiver == ledger[k].receiver
    && r.sender in Replay(opening, ledger[..k + 1])
    && r.senderFunds == Replay(opening, ledger[..k + 1])[r.sender]
  }

  ghost predicate HasReplayedReceipt(s: System, t: Tag, r: Receipt)
    requires |s.origin| == |s.db.ledger|
  {
    exists k :: 0 <= k < |s.origin| && s.origin[k] == t
             && StatesRow(OpeningBalances(s.db.accounts, s.seeded), s.db.ledger, k, r)
  }

  lemma ReceiptIsReplayed(s: System, t: Tag, r: Receipt)
    requires Sound(s.seeded, s.db) && |s.origin| == |s.db.ledger| && HasReceipt(s, t, r)
    ensures HasReplayedReceipt(s, t, r)
  {
    var k :| 0 <= k < |s.origin| && s.origin[k] == t && ReceiptOf(s.seeded, s.db.ledger, k, r);
    assert RowOk(s.db.ledger[k], Ids(s.db.accounts));
    BalanceIsReplayed(s.db.accounts, s.seeded, s.db.ledger[..k + 1], r.sender);
    assert StatesRow(OpeningBalances(s.db.accounts, s.seeded), s.db.ledger, k, r);
  }

  /**
   A client that accepted a receipt has exactly one row in the ledger for that call: the row states
   its request, and the receipt its row and the balance replayed up to it. After an accepted
   refusal there is no row. Without an answer there is at most one.
   */
  lemma AtMostOnce(c: Crypto, events: seq<Event>, t: Tag)
    requires FreshIds(events) && Sent(Run(c, INITIAL, events).procs, t)
    ensures var s := Run(c, INITIAL, events);
            && |s.origin| == |s.db.ledger|
            && multiset(s.origin)[t] <= 1
            && (forall k :: 0 <= k < |s.origin| && s.origin[k] == t ==>
                  RowOf(s.db.ledger[k], PacketOf(s.procs, t).message))
            && (forall r :: ResultOf(s.procs, t) == Answer(CreateTransactionResponse(Ok(r))) ==>
                  multiset(s.origin)[t] == 1 && HasReplayedReceipt(s, t, r))
            && (forall error :: ResultOf(s.procs, t) == Answer(CreateTransactionResponse(Err(error))) ==>
                  multiset(s.origin)[t] == 0)
  {
    AnswersStayTrue(c, events);
    var s := Run(c, INITIAL, events);
    DistinctMeansOnce(s.origin, t);
    forall r | ResultOf(s.procs, t) == Answer(CreateTransactionResponse(Ok(r)))
      ensures HasReplayedReceipt(s, t, r)
    {
      ReceiptIsReplayed(s, t, r);
    }
  }

  lemma OwnAnswerIsAccepted(s: System, tag: Tag, pid: nat)
    requires Linked(s) && DistinctIds(s.procs)
    requires tag in s.replies && pid < |s.procs| && s.procs[pid].log != []
    ensures var packet := s.procs[pid].log[|s.procs[pid].log| - 1].packet;
            Accept(packet, s.replies[tag]).Some? <==> tag == Tag(pid, |s.procs[pid].log| - 1)
  {
    if Accept(s.procs[pid].log[|s.procs[pid].log| - 1].packet, s.replies[tag]).Some? {
      AcceptedAnswerIsOwn(s, tag, pid);
    }
  }

  /** A delivered datagram is accepted exactly when it answers the call the client is waiting on. */
  lemma NoForeignAnswers(c: Crypto, events: seq<Event>, tag: Tag, pid: nat)
    requires FreshIds(events)
    requires var s := Run(c, INITIAL, events);
             tag in s.replies && pid < |s.procs| && s.procs[pid].stage.Waiting?
    ensures var s := Run(c, INITIAL, events);
            && s.procs[pid].log != []
            && (var packet := s.procs[pid].log[|s.procs[pid].log| - 1].packet;
                Accept(packet, s.replies[tag]).Some? <==> tag == Tag(pid, |s.procs[pid].log| - 1))
  {
    InvFromTheStart(c, events);
    FreshIdsStayDistinct(c, events);
    var s := Run(c, INITIAL, events);
    assert ProcOk(s.procs[pid]);
    OwnAnswerIsAccepted(s, tag, pid);
  }
}
