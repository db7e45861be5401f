/** Calls that go through, sent, handled and answered with nobody in between; and the gateway end to end. */
module Gateway {
  import opened Basics
  import opened Messages
  import opened Tables
  import opened Bookkeeping
  import opened Hex
  import opened Auth
  import opened Machine
  import opened Safety
  import opened Guarantees
  import opened Answers

  /** One call without losses: sent, handled, answered. */
  function Round(pid: nat, call: nat, env: Env): seq<Event> {
    [Send(pid, env.newId), Handle(Tag(pid, call), env, false), Deliver(Tag(pid, call), pid)]
  }

  /** The client after a call that was answered. */
  function Answered(p: Proc, message: Uuid, answer: ServerMessage): Proc
    requires NextMessage(p).Some?
  {
    var packet := ClientPacket(VERSION, message, NextMessage(p).value);
    Settle(p.(stage := Waiting, log := p.log + [Call(packet, Pending)]), Answer(answer))
  }

  lemma RunOfThree(c: Crypto, s: System, a: Event, b: Event, d: Event)
    ensures Run(c, s, [a, b, d]) == Step(c, Step(c, Step(c, s, a), b), d)
  {
    var es := [a, b, d];
    RunPrefix(c, s, es, 0);
    RunPrefix(c, s, es, 1);
    RunPrefix(c, s, es, 2);
    assert es[..0] == [] && es[..3] == es;
  }

  lemma RoundAnswers(c: Crypto, s: System, pid: nat, env: Env)
    requires InboxLinked(s) && s.running && pid < |s.procs| && NextMessage(s.procs[pid]).Some?
    requires Respond(s.db, NextMessage(s.procs[pid]).value, env).message.Some?
    ensures var p := s.procs[pid];
            var done := Respond(s.db, NextMessage(p).value, env);
            var s' := Run(c, s, Round(pid, |p.log|, env));
            && s'.db == done.db && s'.running
            && s'.procs == s.procs[pid := Answered(p, env.newId, done.message.value)]
  {
    var p := s.procs[pid];
    var tag := Tag(pid, |p.log|);
    var packet := ClientPacket(VERSION, env.newId, NextMessage(p).value);
    var q := p.(stage := Waiting, log := p.log + [Call(packet, Pending)]);
    RunOfThree(c, s, Send(pid, env.newId), Handle(tag, env, false), Deliver(tag, pid));
    var s1 := StepSend(s, pid, env.newId);
    assert s1 == s.(procs := s.procs[pid := q], inbox := s.inbox[tag := packet]);
    var s2 := StepHandle(s1, tag, env, false);
    assert s2.procs[pid] == q && s2.replies[tag].id == env.newId;
    var s3 := StepDeliver(s2, tag, pid);
    assert s3.procs == s2.procs[pid := Answered(p, env.newId, s2.replies[tag].message)];
    assert s2.procs[pid := Answered(p, env.newId, s2.replies[tag].message)]
        == s.procs[pid := Answered(p, env.newId, s2.replies[tag].message)];
  }

  // ---------------------------------------------------------------- the gateway, end to end

  lemma RunOfOne(c: Crypto, s: System, e: Event)
    ensures Run(c, s, [e]) == Step(c, s, e)
  {
  }

  /** The events of one gateway request about an account: check the token, then ask the core. */
  function Request(pid: nat, now: Time, env: Env): seq<Event> {
    [Clear(pid, now)] + Round(pid, 0, env)
  }

  lemma ClearedRequest(c: Crypto, s: System, pid: nat, now: Time, env: Env)
    requires InboxLinked(s) && s.running && pid < |s.procs|
    requires s.procs[pid].job.Gated? && s.procs[pid] == Proc(s.procs[pid].job, Fresh, [], [])
    requires Validate(c, s.auth, s.procs[pid].job.token, s.procs[pid].job.account, now) == Ok(true)
    requires Respond(s.db, Question(s.procs[pid].job.account, s.procs[pid].job.ask), env).message.Some?
    ensures var done := Respond(s.db, Question(s.procs[pid].job.account, s.procs[pid].job.ask), env);
            var s' := Run(c, s, Request(pid, now, env));
            && s'.db == done.db && |s'.procs| == |s.procs| && |s'.procs[pid].log| == 1
            && s'.procs[pid].log[0].result == Answer(done.message.value)
            && s'.procs[pid].log[0].packet.message == Question(s.procs[pid].job.account, s.procs[pid].job.ask)
  {
    var s1 := StepClear(c, s, pid, now);
    RunOfConcat(c, s, [Clear(pid, now)], Round(pid, 0, env));
    RunOfOne(c, s, Clear(pid, now));
    assert forall t :: Sent(s.procs, t) ==> Sent(s1.procs, t) && PacketOf(s1.procs, t) == PacketOf(s.procs, t);
    assert InboxLinked(s1);
    RoundAnswers(c, s1, pid, env);
  }

  lemma RefusedRequest(c: Crypto, s: System, pid: nat, now: Time, env: Env)
    requires pid < |s.procs|
    requires s.procs[pid].job.Gated? && s.procs[pid] == Proc(s.procs[pid].job, Fresh, [], [])
    requires Validate(c, s.auth, s.procs[pid].job.token, s.procs[pid].job.account, now) != Ok(true)
    requires Tag(pid, 0) !in s.inbox && Tag(pid, 0) !in s.replies
    ensures var s' := Run(c, s, Request(pid, now, env));
            s'.db == s.db && |s'.procs| == |s.procs| && s'.procs[pid].log == [] && s'.procs[pid].stage == Finished
  {
    var s1 := StepClear(c, s, pid, now);
    RunOfConcat(c, s, [Clear(pid, now)], Round(pid, 0, env));
    RunOfOne(c, s, Clear(pid, now));
    RunOfThree(c, s1, Send(pid, env.newId), Handle(Tag(pid, 0), env, false), Deliver(Tag(pid, 0), pid));
    assert NextMessage(s1.procs[pid]).None?;
  }

  /** What a gateway request asks the core: about the account in its path, and nothing else. */
  predicate AsksFor(account: Uuid, ask: Ask, m: ClientMessage) {
    match ask
    case AskAccount => m == GetAccount(account)
    case AskTransactions(begin, end) => m == GetTransactions(account, begin, end)
    case AskTransaction(id) => m == GetTransaction(account, id)
    case AskTransfer(receiver, amount) => m == CreateTransaction(account, receiver, amount)
  }

  /** In every reachable state a gateway request has sent that question or nothing. */
  lemma GatewayAsksForItsUser(c: Crypto, events: seq<Event>, pid: nat, n: nat)
    requires var s := Run(c, INITIAL, events);
             pid < |s.procs| && s.procs[pid].job.Gated? && n < |s.procs[pid].log|
    ensures var p := Run(c, INITIAL, events).procs[pid];
            n == 0 && AsksFor(p.job.account, p.job.ask, p.log[n].packet.message)
  {
    InvFromTheStart(c, events);
    assert ProcOk(Run(c, INITIAL, events).procs[pid]);
  }

  /**
   Whoever presents the printed token of an account has the question asked as the account and answered
   from its rows, up to and at the token's expiry; after it the core is not even asked.
   */
  lemma TokenHolderIsServed(
    c: Crypto, events: seq<Event>, k: nat, bytes: Bytes, salt: nat, issued: Time,
    pid: nat, ask: Ask, now: Time, env: Env)
    requires Faithful(c) && |bytes| == TOKEN_BYTES
    requires var s := Run(c, INITIAL, events);
             && s.running && k < |s.auth| && s.auth[k] == NewRow(c, s.auth[k].account, bytes, salt, issued)
             && pid < |s.procs| && s.procs[pid] == Proc(Gated(s.auth[k].account, Print(bytes), ask), Fresh, [], [])
    ensures var s := Run(c, INITIAL, events);
            var s' := Run(c, s, Request(pid, now, env));
            && |s'.procs| == |s.procs|
            && if now <= issued + 2592000 then
                 && |s'.procs[pid].log| == 1 && s'.procs[pid].log[0].result.Answer?
                 && (var call := s'.procs[pid].log[0];
                     && AsksFor(s.auth[k].account, ask, call.packet.message)
                     && Respond(s.db, call.packet.message, env) == Responded(s'.db, Some(call.result.message))
                     && RightAnswer(s.db, call.packet.message, env, s'.db, call.result.message))
               else
                 s'.db == s.db && s'.procs[pid].log == []
  {
    InvFromTheStart(c, events);
    var s := Run(c, INITIAL, events);
    IssuedTokenAnswers(c, s.auth, k, bytes, salt, issued, now);
    EveryRequestIsAnswered(s.db, Question(s.auth[k].account, ask), env);
    if now <= issued + 2592000 {
      ClearedRequest(c, s, pid, now, env);
    } else {
      assert !Sent(s.procs, Tag(pid, 0));
      RefusedRequest(c, s, pid, now, env);
    }
  }

  /** A request for an account, answered and completed, adds an empty account and its one token. */
  lemma NewAccountGetsToken(
    c: Crypto, s: System, pid: nat, env: Env, bytes: Bytes, salt: nat, now: Time)
    requires Inv(c, s) && s.running && pid < |s.procs| && |bytes| == TOKEN_BYTES
    requires s.procs[pid] == Proc(CreateAccount, Fresh, [], []) && env.newId !in Ids(s.db.accounts)
    ensures var s' := Run(c, s, Round(pid, 0, env) + [IssueToken(pid, bytes, salt, now)]);
            && s'.db.accounts == s.db.accounts + [Account(env.newId, env.created, 0)]
            && s'.db.ledger == s.db.ledger
            && s'.auth == s.auth + [NewRow(c, env.newId, bytes, salt, now)]
  {
    var s1 := Run(c, s, Round(pid, 0, env));
    RoundAnswers(c, s, pid, env);
    RunOfConcat(c, s, Round(pid, 0, env), [IssueToken(pid, bytes, salt, now)]);
    RunOfOne(c, s1, IssueToken(pid, bytes, salt, now));
    RoundKeepsAuth(c, s, pid, env);
  }

  lemma StepKeepsAuth(c: Crypto, s: System, e: Event)
    requires !e.IssueToken?
    ensures Step(c, s, e).auth == s.auth
  {
  }

  lemma RoundKeepsAuth(c: Crypto, s: System, pid: nat, env: Env)
    ensures Run(c, s, Round(pid, 0, env)).auth == s.auth
  {
    var send, handle, deliver := Send(pid, env.newId), Handle(Tag(pid, 0), env, false), Deliver(Tag(pid, 0), pid);
    RunOfThree(c, s, send, handle, deliver);
    StepKeepsAuth(c, s, send);
    StepKeepsAuth(c, Step(c, s, send), handle);
    StepKeepsAuth(c, Step(c, Step(c, s, send), handle), deliver);
  }

  /** If the drawn identifier is taken, by the seed or anyone, no account and no token come of it. */
  lemma CollisionIssuesNothing(
    c: Crypto, s: System, pid: nat, env: Env, bytes: Bytes, salt: nat, now: Time)
    requires Inv(c, s) && s.running && pid < |s.procs|
    requires s.procs[pid] == Proc(CreateAccount, Fresh, [], []) && env.newId in Ids(s.db.accounts)
    ensures var s' := Run(c, s, Round(pid, 0, env) + [IssueToken(pid, bytes, salt, now)]);
            s'.db == s.db && s'.auth == s.auth
  {
    var s1 := Run(c, s, Round(pid, 0, env));
    RoundAnswers(c, s, pid, env);
    RunOfConcat(c, s, Round(pid, 0, env), [IssueToken(pid, bytes, salt, now)]);
    RunOfOne(c, s1, IssueToken(pid, bytes, salt, now));
    RoundKeepsAuth(c, s, pid, env);
  }
}
