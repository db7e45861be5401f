/**
 What each kind of client does for its user: who gets past the gate, whose coin moves, how calls end,
 and what a client without an answer can know.
 */
module Clients {
  import opened Basics
  import opened Messages
  import opened Tables
  import opened Bookkeeping
  import opened Answers
  import opened Store
  import opened Hex
  import opened Auth
  import opened Machine
  import opened Safety
  import opened Guarantees
  import opened Delivery
  import opened Gateway

  // ---------------------------------------------------------------- the gate

  /**
   In every reachable state the token check lets a request through if and only if the account has a row
   whose hash the presented token matches and whose expiry is not past; otherwise the request is over.
   */
  lemma GateOpensExactly(c: Crypto, events: seq<Event>, pid: nat, now: Time)
    requires var s := Run(c, INITIAL, events);
             pid < |s.procs| && s.procs[pid].job.Gated? && s.procs[pid].stage.Fresh?
    ensures var s := Run(c, INITIAL, events);
            var p, q := s.procs[pid], Step(c, s, Clear(pid, now)).procs[pid];
            && (q.stage == Cleared
                <==> exists k :: 0 <= k < |s.auth| && s.auth[k].account == p.job.account
                              && Accepts(c, p.job.token, s.auth[k].hash) && now <= s.auth[k].expiry)
            && (q.stage == Cleared ==> NextMessage(q).Some? && AsksFor(p.job.account, p.job.ask, NextMessage(q).value))
            && (q.stage != Cleared ==> q == p.(stage := Finished))
  {
    InvFromTheStart(c, events);
    var s := Run(c, INITIAL, events);
    OneRowDecides(c, s.auth, s.procs[pid].job.token, s.procs[pid].job.account, now);
  }

  lemma OneRowDecides(c: Crypto, rows: seq<AuthRow>, text: seq<Ascii>, account: Uuid, now: Time)
    requires OneRowEach(rows)
    ensures Validate(c, rows, text, account, now) == Ok(true)
       <==> exists k :: 0 <= k < |rows| && rows[k].account == account
                     && Accepts(c, text, rows[k].hash) && now <= rows[k].expiry
  {
    ValidateGivesRightVerdict(c, rows, text, account, now);
    if k :| 0 <= k < |rows| && rows[k].account == account && Parse(text).Ok? {
      var bytes := Parse(text).value;
      var answer := c.verify(bytes, rows[k].hash);
      assert answer == Some(false) || answer == None || answer == Some(true);
      assert AllMismatch(c, rows[..k], account, bytes);
      assert answer != Some(false) ==> FirstOfAccount(c, rows, account, bytes, k);
      assert answer == Some(false) ==> AllMismatch(c, rows, account, bytes);
    }
  }

  // ---------------------------------------------------------------- payments

  /** In a reachable state a transfer happens exactly when the sender can pay an existing other account. */
  lemma ReachablePayment(c: Crypto, events: seq<Event>, sender: Uuid, receiver: Uuid, amount: I64, env: Env)
    ensures var db := Run(c, INITIAL, events).db;
            var b := Balances(db.accounts);
            Payable(db, sender, receiver, amount, env.newId) <==> (
              && amount > 0 && sender != receiver && sender in b && receiver in b
              && amount <= b[sender] && !HasTx(db.ledger, env.newId))
  {
    InvFromTheStart(c, events);
    var s := Run(c, INITIAL, events);
    SoundTablesPay(s.seeded, s.db, sender, receiver, amount, env);
  }

  /**
   A payment asked for with the printed token, in time, moves the amount from the token's account to
   the receiver named, if and only if there is that much and such a receiver; otherwise nothing moves.
   */
  lemma TokenHolderPays(
    c: Crypto, events: seq<Event>, k: nat, bytes: Bytes, salt: nat, issued: Time,
    pid: nat, receiver: Uuid, amount: I64, now: Time, env: Env)
    requires Faithful(c) && |bytes| == TOKEN_BYTES && now <= issued + 2592000
    requires var s := Run(c, INITIAL, events);
             && s.running && k < |s.auth| && s.auth[k] == NewRow(c, s.auth[k].account, bytes, salt, issued)
             && pid < |s.procs|
             && s.procs[pid]
                == Proc(Gated(s.auth[k].account, Print(bytes), AskTransfer(receiver, amount)), Fresh, [], [])
    ensures var s := Run(c, INITIAL, events);
            var payer, b := s.auth[k].account, Balances(s.db.accounts);
            var after := Run(c, s, Request(pid, now, env)).db;
            && payer in b
            && if 1 <= amount <= b[payer] && receiver in b && receiver != payer && !HasTx(s.db.ledger, env.newId) then
                 Moved(s.db, payer, receiver, amount, env.newId, env.now, after)
               else
                 after == s.db
  {
    InvFromTheStart(c, events);
    var s := Run(c, INITIAL, events);
    TokenHolderIsServed(c, events, k, bytes, salt, issued, pid, AskTransfer(receiver, amount), now, env);
    ReachablePayment(c, events, s.auth[k].account, receiver, amount, env);
  }

  /** The seed tool's main, its request answered and nobody else about. */
  method SeedTxMain(con: Connection, receiver: Uuid, amount: I64, env: Env) returns (answer: Option<ServerMessage>)
    requires con.Valid()
    modifies con
    ensures con.Valid()
    ensures amount > 100 ==> answer.None? && con.Committed() == old(con.Committed())
    ensures amount <= 100 ==>
              && answer.Some?
              && TransferAnswered(old(con.Committed()), SEED_ID, receiver, amount, env, con.Committed(), answer.value)
  {
    if amount > 100 { return None; }
    var packet := ClientPacket(VERSION, env.newId, CreateTransaction(SEED_ID, receiver, amount));
    var reply := MessageDispatch(con, packet, env);
    return Some(reply.value.message);
  }

  lemma SilentRound(c: Crypto, s: System, pid: nat, env: Env)
    requires Linked(s) && pid < |s.procs| && NextMessage(s.procs[pid]).None?
    requires s.procs[pid].log == [] && !s.procs[pid].stage.Waiting?
    ensures Run(c, s, Round(pid, 0, env)) == s
  {
    assert !Sent(s.procs, Tag(pid, 0));
    RunOfThree(c, s, Send(pid, env.newId), Handle(Tag(pid, 0), env, false), Deliver(Tag(pid, 0), pid));
  }

  /** The tool's one call is the payment from the seed, and it is answered. */
  ghost predicate SeedToolAnswered(s: System, pid: nat, receiver: Uuid, amount: I64, env: Env, s': System) {
    && pid < |s.procs| == |s'.procs| && s'.procs[pid].stage == Finished && |s'.procs[pid].log| == 1
    && var call := s'.procs[pid].log[0];
    && call.packet == ClientPacket(1, env.newId, CreateTransaction(SEED_ID, receiver, amount))
    && call.result.Answer?
    && TransferAnswered(s.db, SEED_ID, receiver, amount, env, s'.db, call.result.message)
  }

  lemma SeedToolRound(c: Crypto, s: System, pid: nat, receiver: Uuid, amount: I64, env: Env)
    requires Linked(s) && UniqueIds(s.db.accounts) && s.running && pid < |s.procs| && amount <= 100
    requires s.procs[pid] == Proc(SeedTx(receiver, amount), Fresh, [], [])
    ensures SeedToolAnswered(s, pid, receiver, amount, env, Run(c, s, Round(pid, 0, env)))
  {
    TransferRequest(s.db, SEED_ID, receiver, amount, env);
    RoundAnswers(c, s, pid, env);
  }

  /**
   The seed tool in a reachable state, undisturbed: above 100 it does nothing at all. Otherwise its one
   call is the payment from the seed, it is answered, and the amount moves if and only if it is positive
   and the seed has it, the receiver is another existing account and the identifier is new.
   */
  lemma SeedToolPays(c: Crypto, events: seq<Event>, pid: nat, receiver: Uuid, amount: I64, env: Env)
    requires var s := Run(c, INITIAL, events);
             && s.running && s.seeded && pid < |s.procs|
             && s.procs[pid] == Proc(SeedTx(receiver, amount), Fresh, [], [])
    ensures var s := Run(c, INITIAL, events);
            var s' := Run(c, s, Round(pid, 0, env));
            var b := Balances(s.db.accounts);
            && SEED_ID in b
            && (amount > 100 ==> s' == s)
            && (amount <= 100 ==>
                  && SeedToolAnswered(s, pid, receiver, amount, env, s')
                  && if 1 <= amount <= b[SEED_ID] && receiver in b && receiver != SEED_ID
                        && !HasTx(s.db.ledger, env.newId) then
                       Moved(s.db, SEED_ID, receiver, amount, env.newId, env.now, s'.db)
                     else
                       s'.db == s.db)
  {
    InvFromTheStart(c, events);
    var s := Run(c, INITIAL, events);
    if amount > 100 {
      SilentRound(c, s, pid, env);
    } else {
      ReachablePayment(c, events, SEED_ID, receiver, amount, env);
      SeedToolRound(c, s, pid, receiver, amount, env);
    }
  }

  // ---------------------------------------------------------------- how calls end

  /** A client that is done does nothing more. */
  lemma {:induction false} FinishedStaysFinished(c: Crypto, s: System, pid: nat, more: seq<Event>)
    requires pid < |s.procs| && s.procs[pid].stage == Finished
    ensures pid < |Run(c, s, more).procs| && Run(c, s, more).procs[pid] == s.procs[pid]
  {
    if more != [] {
      FinishedStaysFinished(c, s, pid, more[..|more| - 1]);
      FinishedTakesNoStep(c, Run(c, s, more[..|more| - 1]), pid, more[|more| - 1]);
    }
  }

  lemma FinishedTakesNoStep(c: Crypto, s: System, pid: nat, e: Event)
    requires pid < |s.procs| && s.procs[pid].stage == Finished
    ensures pid < |Step(c, s, e).procs| && Step(c, s, e).procs[pid] == s.procs[pid]
  {
    if e.Send? {
      assert NextMessage(s.procs[pid]).None?;
    } else if e.Deliver? {
      FinishedTakesNoAnswer(s, pid, e.tag, e.pid);
    }
  }

  lemma FinishedTakesNoAnswer(s: System, pid: nat, tag: Tag, to: nat)
    requires pid < |s.procs| && s.procs[pid].stage == Finished
    ensures pid < |StepDeliver(s, tag, to).procs| && StepDeliver(s, tag, to).procs[pid] == s.procs[pid]
  {
  }

  /** Nor does one that is killed. */
  lemma KilledClientIsGone(c: Crypto, s: System, pid: nat, more: seq<Event>)
    requires pid < |s.procs|
    ensures var after := Run(c, s, [Kill(pid)] + more);
            pid < |after.procs| && after.procs[pid] == s.procs[pid].(stage := Finished)
  {
    RunOfConcat(c, s, [Kill(pid)], more);
    RunOfOne(c, s, Kill(pid));
    FinishedStaysFinished(c, Step(c, s, Kill(pid)), pid, more);
  }

  /** The client whose last call is over without an answer. */
  function GivenUp(p: Proc): Proc
    requires p.log != []
  {
    var last := |p.log| - 1;
    p.(stage := Finished, log := p.log[last := Call(p.log[last].packet, NoAnswer)])
  }

  /** The datagram is used up and the call over: answered if the identifier is the call's, else given up. */
  ghost predicate EndsCall(s: System, tag: Tag, pid: nat, s': System)
    requires tag in s.replies && pid < |s.procs| && s.procs[pid].log != []
  {
    var p := s.procs[pid];
    && |s'.procs| == |s.procs| && !s'.procs[pid].stage.Waiting?
    && s'.db == s.db && s'.replies == s.replies - {tag}
    && if s.replies[tag].id == p.log[|p.log| - 1].packet.id then
         |s'.procs[pid].log| == |p.log| && s'.procs[pid].log[|p.log| - 1].result == Answer(s.replies[tag].message)
       else
         s'.procs == s.procs[pid := GivenUp(p)]
  }

  lemma DeliveryAt(s: System, tag: Tag, pid: nat)
    requires tag in s.replies && pid < |s.procs| && s.procs[pid].stage.Waiting? && s.procs[pid].log != []
    requires s.replies[tag].v == VERSION
    ensures EndsCall(s, tag, pid, StepDeliver(s, tag, pid))
  {
  }

  lemma ForeignDatagram(c: Crypto, s: System, tag: Tag, pid: nat, more: seq<Event>)
    requires tag in s.replies && pid < |s.procs| && s.procs[pid].stage.Waiting? && s.procs[pid].log != []
    requires s.replies[tag].id != s.procs[pid].log[|s.procs[pid].log| - 1].packet.id
    ensures var after := Run(c, StepDeliver(s, tag, pid), more);
            pid < |after.procs| && after.procs[pid] == GivenUp(s.procs[pid])
  {
    FinishedStaysFinished(c, StepDeliver(s, tag, pid), pid, more);
  }

  lemma WaitingOnReply(c: Crypto, events: seq<Event>, tag: Tag, pid: nat)
    requires var s := Run(c, INITIAL, events);
             tag in s.replies && pid < |s.procs| && s.procs[pid].stage.Waiting?
    ensures var s := Run(c, INITIAL, events); s.procs[pid].log != [] && s.replies[tag].v == VERSION
  {
    InvFromTheStart(c, events);
    assert ProcOk(Run(c, INITIAL, events).procs[pid]);
  }

  /**
   A delivered datagram ends the call either way: one with the call's identifier is its answer, any
   other leaves the call without one, and the client does nothing more for good.
   */
  lemma DeliveryEndsCall(c: Crypto, events: seq<Event>, tag: Tag, pid: nat, more: seq<Event>)
    requires var s := Run(c, INITIAL, events);
             tag in s.replies && pid < |s.procs| && s.procs[pid].stage.Waiting?
    ensures var s := Run(c, INITIAL, events);
            var p, s' := s.procs[pid], StepDeliver(s, tag, pid);
            && p.log != [] && EndsCall(s, tag, pid, s')
            && (s.replies[tag].id != p.log[|p.log| - 1].packet.id ==>
                  pid < |Run(c, s', more).procs| && Run(c, s', more).procs[pid] == GivenUp(p))
  {
    WaitingOnReply(c, events, tag, pid);
    var s := Run(c, INITIAL, events);
    DeliveryAt(s, tag, pid);
    if s.replies[tag].id != s.procs[pid].log[|s.procs[pid].log| - 1].packet.id {
      ForeignDatagram(c, s, tag, pid, more);
    }
  }

  /** The client that has just asked, its call still open. */
  function Asking(p: Proc, message: Uuid): Proc
    requires NextMessage(p).Some?
  {
    p.(stage := Waiting, log := p.log + [Call(ClientPacket(VERSION, message, NextMessage(p).value), Pending)])
  }

  /** The ways in which a request can go unanswered before the core has taken it up. */
  function Unheard(pid: nat, call: nat, message: Uuid, way: nat): seq<Event> {
    match way
    case 0 => [StopCore, Send(pid, message)]
    case 1 => [Send(pid, message), StopCore, TimeOut(pid)]
    case _ => [Send(pid, message), LoseRequest(Tag(pid, call)), TimeOut(pid)]
  }

  lemma AskedInVain(c: Crypto, s: System, pid: nat, message: Uuid, between: Event)
    requires s.running && pid < |s.procs| && NextMessage(s.procs[pid]).Some?
    requires between == StopCore || between == LoseRequest(Tag(pid, |s.procs[pid].log|))
    ensures var p := s.procs[pid];
            var s' := StepTimeOut(Step(c, StepSend(s, pid, message), between), pid);
            && s'.db == s.db && s'.procs == s.procs[pid := GivenUp(Asking(p, message))]
            && s'.replies == s.replies && s'.origin == s.origin && Tag(pid, |p.log|) !in s'.inbox
  {
    var q := Asking(s.procs[pid], message);
    assert Settle(q, NoAnswer) == GivenUp(q);
    assert StepSend(s, pid, message).procs == s.procs[pid := q];
  }

  lemma UnheardLeavesTables(c: Crypto, s: System, pid: nat, message: Uuid, way: nat)
    requires s.running && pid < |s.procs| && NextMessage(s.procs[pid]).Some?
    ensures var p := s.procs[pid];
            var s' := Run(c, s, Unheard(pid, |p.log|, message, way));
            && s'.db == s.db && s'.procs == s.procs[pid := GivenUp(Asking(p, message))]
            && s'.replies == s.replies && s'.origin == s.origin && Tag(pid, |p.log|) !in s'.inbox
  {
    var p := s.procs[pid];
    if way == 0 {
      RunOfTwo(c, s, StopCore, Send(pid, message));
      assert Settle(Asking(p, message), NoAnswer) == GivenUp(Asking(p, message));
    } else {
      var between := if way == 1 then StopCore else LoseRequest(Tag(pid, |p.log|));
      RunOfThree(c, s, Send(pid, message), between, TimeOut(pid));
      AskedInVain(c, s, pid, message, between);
    }
  }

  lemma RunOfTwo(c: Crypto, s: System, a: Event, b: Event)
    ensures Run(c, s, [a, b]) == Step(c, Step(c, s, a), b)
  {
    RunOfConcat(c, s, [a], [b]);
    RunOfOne(c, s, a);
    RunOfOne(c, Step(c, s, a), b);
    assert [a] + [b] == [a, b];
  }

  /** The ways in which it can go unanswered after the core has carried it out. */
  function CarriedOut(pid: nat, call: nat, message: Uuid, env: Env, dies: bool): seq<Event> {
    [Send(pid, message), Handle(Tag(pid, call), env, dies)] + [LoseReply(Tag(pid, call)), TimeOut(pid)]
  }

  lemma SentAndHandled(s: System, pid: nat, message: Uuid, env: Env, dies: bool)
    requires s.running && pid < |s.procs| && NextMessage(s.procs[pid]).Some?
    requires Respond(s.db, NextMessage(s.procs[pid]).value, env).message.Some?
    ensures var p := s.procs[pid];
            var s' := StepHandle(StepSend(s, pid, message), Tag(pid, |p.log|), env, dies);
            && s'.db == Respond(s.db, NextMessage(p).value, env).db
            && s'.procs == s.procs[pid := Asking(p, message)] && s'.running == !dies
  {
    var p := s.procs[pid];
    var s1 := StepSend(s, pid, message);
    assert s1.procs == s.procs[pid := Asking(p, message)] && s1.db == s.db && s1.running;
    assert s1.inbox[Tag(pid, |p.log|)] == ClientPacket(VERSION, message, NextMessage(p).value);
  }

  lemma AnswerIsLost(c: Crypto, s: System, tag: Tag, pid: nat)
    requires pid < |s.procs| && s.procs[pid].stage.Waiting? && s.procs[pid].log != []
    ensures var s' := Run(c, s, [LoseReply(tag), TimeOut(pid)]);
            && s'.db == s.db && s'.running == s.running && tag !in s'.replies
            && s'.procs == s.procs[pid := Settle(s.procs[pid], NoAnswer)]
  {
    RunOfTwo(c, s, LoseReply(tag), TimeOut(pid));
  }

  lemma CarriedOutChangesTables(c: Crypto, s: System, pid: nat, message: Uuid, env: Env, dies: bool)
    requires s.running && pid < |s.procs| && NextMessage(s.procs[pid]).Some?
    requires Respond(s.db, NextMessage(s.procs[pid]).value, env).message.Some?
    ensures var p := s.procs[pid];
            var s' := Run(c, s, CarriedOut(pid, |p.log|, message, env, dies));
            && s'.db == Respond(s.db, NextMessage(p).value, env).db
            && s'.procs == s.procs[pid := GivenUp(Asking(p, message))] && s'.running == !dies
            && Tag(pid, |p.log|) !in s'.replies
  {
    var p := s.procs[pid];
    var tag := Tag(pid, |p.log|);
    var heard := [Send(pid, message), Handle(tag, env, dies)];
    RunOfTwo(c, s, heard[0], heard[1]);
    SentAndHandled(s, pid, message, env, dies);
    RunOfConcat(c, s, heard, [LoseReply(tag), TimeOut(pid)]);
    AnswerIsLost(c, Run(c, s, heard), tag, pid);
    assert Settle(Asking(p, message), NoAnswer) == GivenUp(Asking(p, message));
  }

  lemma NewCallIsUnknown(c: Crypto, s: System, t: Tag)
    requires Inv(c, s) && !Sent(s.procs, t)
    ensures t !in s.replies && t !in s.origin
  {
  }

  /**
   Silence tells a client nothing: in every reachable state in which a client is about to ask, each way
   of not being heard and each way of losing the answer leave every client in the very same state, though
   the former leave the tables alone and the request forgotten, and the latter leave the tables with the
   request carried out and no answer to it anywhere.
   */
  lemma SilenceTellsNothing(
    c: Crypto, events: seq<Event>, pid: nat, message: Uuid, env: Env, way: nat, dies: bool)
    requires var s := Run(c, INITIAL, events); s.running && pid < |s.procs| && NextMessage(s.procs[pid]).Some?
    ensures var s := Run(c, INITIAL, events);
            var call, m := |s.procs[pid].log|, NextMessage(s.procs[pid]).value;
            var unheard := Run(c, s, Unheard(pid, call, message, way));
            var carriedOut := Run(c, s, CarriedOut(pid, call, message, env, dies));
            && unheard.procs == carriedOut.procs && |unheard.procs| == |s.procs|
            && |unheard.procs[pid].log| == call + 1 && unheard.procs[pid].log[call].result == NoAnswer
            && unheard.db == s.db && Forgotten(unheard, Tag(pid, call))
            && Tag(pid, call) !in carriedOut.replies && carriedOut.running == !dies
            && exists answer :: RightAnswer(s.db, m, env, carriedOut.db, answer)
  {
    InvFromTheStart(c, events);
    var s := Run(c, INITIAL, events);
    var m := NextMessage(s.procs[pid]).value;
    UnheardLeavesTables(c, s, pid, message, way);
    NewCallIsUnknown(c, s, Tag(pid, |s.procs[pid].log|));
    EveryRequestIsAnswered(s.db, m, env);
    CarriedOutChangesTables(c, s, pid, message, env, dies);
    assert RightAnswer(s.db, m, env, Respond(s.db, m, env).db, Respond(s.db, m, env).message.value);
  }

  // ---------------------------------------------------------------- restarts

  /** A restart of a seeded core loses the requests in its socket and changes nothing else. */
  lemma RestartOnlyForgets(c: Crypto, events: seq<Event>, seedFails: bool, now: Time)
    requires var s := Run(c, INITIAL, events); s.running && s.seeded
    ensures var s := Run(c, INITIAL, events);
            Run(c, s, [StopCore, StartCore(seedFails, now)]) == s.(inbox := map[])
  {
    InvFromTheStart(c, events);
    var s := Run(c, INITIAL, events);
    RunOfTwo(c, s, StopCore, StartCore(seedFails, now));
    ReseedingNeverMints(s.db, now);
  }

  /** The call was sent, and nothing of it is left in the system. */
  ghost predicate Forgotten(s: System, t: Tag) {
    Sent(s.procs, t) && t !in s.inbox && t !in s.replies && t !in s.origin
  }

  lemma StepKeepsForgotten(c: Crypto, s: System, e: Event, t: Tag)
    requires Forgotten(s, t)
    ensures Forgotten(Step(c, s, e), t)
  {
    StepContinues(c, s, e);
    ContinuedPacket(s.procs, Step(c, s, e).procs, t);
    StepMovesTags(c, s, e);
    NoNewReply(c, s, e, t);
  }

  lemma NoNewReply(c: Crypto, s: System, e: Event, t: Tag)
    requires t !in s.replies && t !in s.inbox
    ensures t !in Step(c, s, e).replies
  {
  }

  /** A request that was in the core's socket when it stopped never has a row or an answer. */
  lemma StoppedCoreForgets(c: Crypto, events: seq<Event>, t: Tag, more: seq<Event>)
    requires t in Run(c, INITIAL, events).inbox
    ensures Forgotten(Run(c, INITIAL, events + [StopCore] + more), t)
  {
    InvFromTheStart(c, events);
    RunOfConcat(c, INITIAL, events, [StopCore]);
    RunOfOne(c, Run(c, INITIAL, events), StopCore);
    RunOfConcat(c, INITIAL, events + [StopCore], more);
    StaysForgotten(c, Run(c, INITIAL, events + [StopCore]), t, more);
  }

  lemma {:induction false} StaysForgotten(c: Crypto, s: System, t: Tag, more: seq<Event>)
    requires Forgotten(s, t)
    ensures Forgotten(Run(c, s, more), t)
  {
    if more != [] {
      StaysForgotten(c, s, t, more[..|more| - 1]);
      StepKeepsForgotten(c, Run(c, s, more[..|more| - 1]), more[|more| - 1], t);
    }
  }
}
