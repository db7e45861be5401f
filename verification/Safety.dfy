/** What every step of the system keeps, whatever the interleaving, the losses and the crashes. */
module Safety {
  import opened Basics
  import opened Messages
  import opened Tables
  import opened Bookkeeping
  import opened Hex
  import opened Auth
  import opened Machine

  // ---------------------------------------------------------------- what clients send

  /** The only message the j-th call of this client can carry. */
  function Expected(p: Proc, j: nat): ClientMessage {
    match p.job
    case CreateAccount => CreateNewAccount
    case Gated(account, _, ask) => Question(account, ask)
    case SeedTx(receiver, amount) => CreateTransaction(SEED_ID, receiver, amount)
    case Stipend(_, amount) =>
      if 1 <= j <= |p.snapshot| then CreateTransaction(SEED_ID, p.snapshot[j - 1].id, amount) else GetAccounts
  }

  /** A client that got no answer makes no further call. */
  ghost predicate OnlyLastUnanswered(p: Proc) {
    && (forall j :: 0 <= j < |p.log| - 1 ==> p.log[j].result.Answer?)
    && (p.stage.Paying? && p.log != [] ==> p.log[|p.log| - 1].result.Answer?)
  }

  ghost predicate ProcOk(p: Proc) {
    && (forall j :: 0 <= j < |p.log| ==>
          p.log[j].packet.v == VERSION && p.log[j].packet.message == Expected(p, j))
    && (p.stage.Fresh? || p.stage.Cleared? ==> p.log == [])
    && (p.stage.Waiting? || p.stage.Paying? ==> p.log != [])
    && (!p.job.Stipend? ==> |p.log| <= 1)
    && OnlyLastUnanswered(p)
    && (p.job.SeedTx? && p.log != [] ==> p.job.amount <= 100)
    && (p.job.Stipend? ==>
          && (p.log != [] ==> p.job.amount <= 100)
          && |p.log| <= |p.snapshot| + 1
          && UniqueIds(p.snapshot)
          && (forall i :: 0 <= i < |p.snapshot| ==> p.snapshot[i].funds <= p.job.minimum))
  }

  ghost predicate AllOk(procs: seq<Proc>) {
    forall i :: 0 <= i < |procs| ==> ProcOk(procs[i])
  }

  ghost predicate ProcsOk(s: System) {
    AllOk(s.procs)
  }

  /** A snapshot in flight is a table with unique keys. */
  ghost predicate SnapshotsOk(s: System) {
    forall t :: t in s.replies && s.replies[t].message.GetAccountsResponse? && s.replies[t].message.accounts.Ok? ==>
      UniqueIds(s.replies[t].message.accounts.value)
  }

  lemma {:induction false} EligibleKeepsIds(rows: seq<Account>, minimum: int)
    requires UniqueIds(rows)
    ensures UniqueIds(Eligible(rows, minimum))
  {
    if rows != [] {
      EligibleKeepsIds(rows[..|rows| - 1], minimum);
      forall a | a in Eligible(rows[..|rows| - 1], minimum)
        ensures a.id != rows[|rows| - 1].id
      {
      }
    }
  }

  /** The filter keeps exactly the rows at or below the minimum, each as often as it occurs, in order. */
  lemma {:induction false} EligibleKeepsOrder(a: seq<Account>, b: seq<Account>, minimum: int)
    ensures Eligible(a + b, minimum) == Eligible(a, minimum) + Eligible(b, minimum)
    ensures forall x :: multiset(Eligible(b, minimum))[x] == if x.funds <= minimum then multiset(b)[x] else 0
    decreases |b|
  {
    if b == [] {
      assert a + b == a;
    } else {
      var init, last := b[..|b| - 1], b[|b| - 1];
      assert b == init + [last];
      EligibleKeepsOrder(a, init, minimum);
      assert (a + b)[..|a + b| - 1] == a + init;
    }
  }

  lemma SettleKeepsProcOk(p: Proc, result: CallResult)
    requires ProcOk(p) && p.log != []
    requires result.Answer? && result.message.GetAccountsResponse? && result.message.accounts.Ok? ==>
               UniqueIds(result.message.accounts.value)
    ensures ProcOk(Settle(p, result))
  {
    if p.job.Stipend? && result.Answer? && result.message.GetAccountsResponse? && result.message.accounts.Ok? {
      EligibleKeepsIds(result.message.accounts.value, p.job.minimum);
    }
  }

  lemma SendKeepsProcOk(p: Proc, message: Uuid)
    requires ProcOk(p) && NextMessage(p).Some?
    ensures var packet := ClientPacket(VERSION, message, NextMessage(p).value);
            ProcOk(p.(stage := Waiting, log := p.log + [Call(packet, Pending)]))
  {
  }

  lemma UpdateKeepsProcs(procs: seq<Proc>, pid: nat, q: Proc)
    requires AllOk(procs) && pid < |procs| && ProcOk(q)
    ensures AllOk(procs[pid := q])
  {
  }

  lemma SendKeepsProcs(c: Crypto, s: System, pid: nat, message: Uuid)
    requires ProcsOk(s)
    ensures ProcsOk(StepSend(s, pid, message))
  {
    if pid < |s.procs| && NextMessage(s.procs[pid]).Some? {
      var p := s.procs[pid];
      var packet := ClientPacket(VERSION, message, NextMessage(p).value);
      var q := p.(stage := Waiting, log := p.log + [Call(packet, Pending)]);
      SendKeepsProcOk(p, message);
      SettleKeepsProcOk(q, NoAnswer);
      UpdateKeepsProcs(s.procs, pid, q);
      UpdateKeepsProcs(s.procs, pid, Settle(q, NoAnswer));
    }
  }

  lemma DeliverKeepsProcs(s: System, tag: Tag, pid: nat)
    requires ProcsOk(s) && SnapshotsOk(s)
    ensures ProcsOk(StepDeliver(s, tag, pid))
  {
    if tag in s.replies && pid < |s.procs| && s.procs[pid].stage.Waiting? {
      var p, m := s.procs[pid], s.replies[tag].message;
      SettleKeepsProcOk(p, Answer(m));
      SettleKeepsProcOk(p, NoAnswer);
      UpdateKeepsProcs(s.procs, pid, Settle(p, Answer(m)));
      UpdateKeepsProcs(s.procs, pid, Settle(p, NoAnswer));
    }
  }

  lemma StageKeepsProcOk(p: Proc, stage: Stage)
    requires ProcOk(p) && (stage.Finished? || (stage.Cleared? && p.stage.Fresh?))
    ensures ProcOk(p.(stage := stage))
  {
  }

  lemma StageChangeKeepsProcs(c: Crypto, s: System, e: Event)
    requires ProcsOk(s)
    requires e.Clear? || e.Kill? || e.IssueToken?
    ensures ProcsOk(Step(c, s, e))
  {
    if e.pid < |s.procs| {
      if s.procs[e.pid].stage.Fresh? {
        StageKeepsProcOk(s.procs[e.pid], Cleared);
        UpdateKeepsProcs(s.procs, e.pid, s.procs[e.pid].(stage := Cleared));
      }
      StageKeepsProcOk(s.procs[e.pid], Finished);
      UpdateKeepsProcs(s.procs, e.pid, s.procs[e.pid].(stage := Finished));
    }
  }

  lemma StepKeepsProcs(c: Crypto, s: System, e: Event)
    requires ProcsOk(s) && SnapshotsOk(s)
    ensures ProcsOk(Step(c, s, e))
  {
    if e.Send? {
      SendKeepsProcs(c, s, e.pid, e.message);
    } else if e.Deliver? {
      DeliverKeepsProcs(s, e.tag, e.pid);
    } else if e.TimeOut? {
      if e.pid < |s.procs| && s.procs[e.pid].stage.Waiting? {
        SettleKeepsProcOk(s.procs[e.pid], NoAnswer);
        UpdateKeepsProcs(s.procs, e.pid, Settle(s.procs[e.pid], NoAnswer));
      }
    } else if e.Clear? || e.Kill? || e.IssueToken? {
      StageChangeKeepsProcs(c, s, e);
    } else if e.Spawn? {
      assert ProcOk(Proc(e.job, Fresh, [], []));
    } else {
      assert Step(c, s, e).procs == s.procs;
    }
  }

  lemma StepKeepsSnapshots(c: Crypto, s: System, e: Event)
    requires SnapshotsOk(s) && UniqueIds(s.db.accounts)
    ensures SnapshotsOk(Step(c, s, e))
  {
    if e.Handle? && s.running && e.tag in s.inbox {
      var done := Respond(s.db, s.inbox[e.tag].message, e.env);
      assert done.message.Some? && done.message.value.GetAccountsResponse? ==>
          done.message.value.accounts == Ok(s.db.accounts);
    }
  }

  // ---------------------------------------------------------------- requests, answers and rows

  ghost predicate Sent(procs: seq<Proc>, t: Tag) {
    t.pid < |procs| && t.call < |procs[t.pid].log|
  }

  function PacketOf(procs: seq<Proc>, t: Tag): ClientPacket
    requires Sent(procs, t)
  {
    procs[t.pid].log[t.call].packet
  }

  predicate RowOf(row: Transaction, m: ClientMessage) {
    m == CreateTransaction(row.sender, row.receiver, row.amount)
  }

  ghost predicate InboxLinked(s: System) {
    forall t :: t in s.inbox ==> Sent(s.procs, t) && s.inbox[t] == PacketOf(s.procs, t)
  }

  ghost predicate RepliesLinked(s: System) {
    forall t :: t in s.replies ==>
      && t !in s.inbox && Sent(s.procs, t)
      && s.replies[t].v == VERSION && s.replies[t].id == PacketOf(s.procs, t).id
  }

  /** Each ledger row stems from one call of one client, and no call stands behind two rows. */
  ghost predicate RowsLinked(s: System) {
    && |s.origin| == |s.db.ledger|
    && (forall k :: 0 <= k < |s.origin| ==>
          && s.origin[k] !in s.inbox && Sent(s.procs, s.origin[k])
          && RowOf(s.db.ledger[k], PacketOf(s.procs, s.origin[k]).message))
    && (forall j, k :: 0 <= j < k < |s.origin| ==> s.origin[j] != s.origin[k])
  }

  ghost predicate Linked(s: System) {
    InboxLinked(s) && RepliesLinked(s) && RowsLinked(s)
  }

  /** The client keeps its job and the packets it has sent. */
  ghost predicate Continues(p: Proc, q: Proc) {
    && q.job == p.job && |p.log| <= |q.log|
    && forall j :: 0 <= j < |p.log| ==> q.log[j].packet == p.log[j].packet
  }

  ghost predicate AllContinue(procs: seq<Proc>, procs': seq<Proc>) {
    |procs| <= |procs'| && forall i :: 0 <= i < |procs| ==> Continues(procs[i], procs'[i])
  }

  lemma UpdateContinues(procs: seq<Proc>, pid: nat, q: Proc)
    requires pid < |procs| && Continues(procs[pid], q)
    ensures AllContinue(procs, procs[pid := q])
  {
  }

  lemma SendContinues(s: System, pid: nat, message: Uuid)
    ensures AllContinue(s.procs, StepSend(s, pid, message).procs)
  {
  }

  lemma AnswerContinues(procs: seq<Proc>, pid: nat, result: CallResult)
    requires pid < |procs| && procs[pid].log != []
    ensures AllContinue(procs, procs[pid := Settle(procs[pid], result)])
  {
  }

  lemma DeliverContinues(s: System, tag: Tag, pid: nat)
    ensures AllContinue(s.procs, StepDeliver(s, tag, pid).procs)
  {
  }

  lemma StageChangeContinues(c: Crypto, s: System, e: Event)
    requires e.Clear? || e.Kill? || e.IssueToken?
    ensures AllContinue(s.procs, Step(c, s, e).procs)
  {
    if e.pid < |s.procs| {
      UpdateContinues(s.procs, e.pid, Step(c, s, e).procs[e.pid]);
    }
  }

  lemma StepContinues(c: Crypto, s: System, e: Event)
    ensures AllContinue(s.procs, Step(c, s, e).procs)
  {
    if e.Send? {
      SendContinues(s, e.pid, e.message);
    } else if e.Deliver? {
      DeliverContinues(s, e.tag, e.pid);
    } else if e.TimeOut? {
      if e.pid < |s.procs| && s.procs[e.pid].log != [] {
        AnswerContinues(s.procs, e.pid, NoAnswer);
      }
    } else if e.Clear? || e.Kill? || e.IssueToken? {
      StageChangeContinues(c, s, e);
    } else if !e.Spawn? {
      assert Step(c, s, e).procs == s.procs;
    }
  }

  lemma ContinuedPacket(procs: seq<Proc>, procs': seq<Proc>, t: Tag)
    requires AllContinue(procs, procs') && Sent(procs, t)
    ensures Sent(procs', t) && PacketOf(procs', t) == PacketOf(procs, t)
  {
  }

  /** Nothing but the clients' progress and losses of datagrams. */
  ghost predicate OnlyLosses(s: System, s': System) {
    && AllContinue(s.procs, s'.procs)
    && (forall t :: t in s'.inbox ==> t in s.inbox && s'.inbox[t] == s.inbox[t])
    && (forall t :: t in s'.replies ==> t in s.replies && s'.replies[t] == s.replies[t])
    && s'.origin == s.origin && s'.db.ledger == s.db.ledger
  }

  lemma LossesKeepLinked(s: System, s': System)
    requires Linked(s) && OnlyLosses(s, s')
    ensures Linked(s')
  {
    forall t | t in s'.inbox ensures Sent(s'.procs, t) && s'.inbox[t] == PacketOf(s'.procs, t) {
      ContinuedPacket(s.procs, s'.procs, t);
    }
    forall t | t in s'.replies
      ensures t !in s'.inbox && Sent(s'.procs, t) && s'.replies[t].id == PacketOf(s'.procs, t).id
    {
      ContinuedPacket(s.procs, s'.procs, t);
    }
    forall k | 0 <= k < |s'.origin|
      ensures s'.origin[k] !in s'.inbox && Sent(s'.procs, s'.origin[k])
      ensures RowOf(s'.db.ledger[k], PacketOf(s'.procs, s'.origin[k]).message)
    {
      ContinuedPacket(s.procs, s'.procs, s.origin[k]);
    }
  }

  lemma DeliverOnlyLoses(s: System, tag: Tag, pid: nat)
    ensures OnlyLosses(s, StepDeliver(s, tag, pid))
  {
  }

  lemma OtherStepsOnlyLose(c: Crypto, s: System, e: Event)
    requires !e.Send? && !e.Handle?
    ensures OnlyLosses(s, Step(c, s, e))
  {
    if e.Deliver? {
      DeliverOnlyLoses(s, e.tag, e.pid);
    } else {
      StepContinues(c, s, e);
      assert Step(c, s, e).origin == s.origin && Step(c, s, e).db.ledger == s.db.ledger;
    }
  }

  /** A new request adds one datagram under a label that is new everywhere. */
  lemma SendEffect(s: System, pid: nat, message: Uuid)
    requires s.running && pid < |s.procs| && NextMessage(s.procs[pid]).Some?
    ensures var s' := StepSend(s, pid, message);
            var tag := Tag(pid, |s.procs[pid].log|);
            && !Sent(s.procs, tag) && Sent(s'.procs, tag)
            && s' == s.(procs := s'.procs, inbox := s.inbox[tag := PacketOf(s'.procs, tag)])
  {
  }

  lemma SilentSend(s: System, pid: nat, message: Uuid)
    requires !s.running || pid >= |s.procs| || NextMessage(s.procs[pid]).None?
    ensures StepSend(s, pid, message) == s.(procs := StepSend(s, pid, message).procs)
  {
  }

  lemma SendKeepsLinked(s: System, pid: nat, message: Uuid)
    requires Linked(s)
    ensures Linked(StepSend(s, pid, message))
  {
    var s' := StepSend(s, pid, message);
    SendContinues(s, pid, message);
    LossesKeepLinked(s, s.(procs := s'.procs));
    if s.running && pid < |s.procs| && NextMessage(s.procs[pid]).Some? {
      SendEffect(s, pid, message);
      RequestKeepsLinked(s, s', Tag(pid, |s.procs[pid].log|));
    } else {
      SilentSend(s, pid, message);
    }
  }

  lemma RequestKeepsLinked(s: System, s': System, tag: Tag)
    requires Linked(s) && Linked(s'.(inbox := s.inbox)) && !Sent(s.procs, tag) && Sent(s'.procs, tag)
    requires s'.inbox == s.inbox[tag := PacketOf(s'.procs, tag)]
    requires s'.replies == s.replies && s'.origin == s.origin && s'.db == s.db
    ensures Linked(s')
  {
  }

  lemma RespondAddsAtMostOneRow(db: Db, m: ClientMessage, env: Env)
    ensures var after := Respond(db, m, env).db.ledger;
            after == db.ledger
            || (|after| == |db.ledger| + 1 && after[..|db.ledger|] == db.ledger && RowOf(after[|db.ledger|], m))
  {
  }

  lemma RowKeepsLinked(s: System, s': System, tag: Tag)
    requires Linked(s) && tag in s.inbox && tag !in s'.inbox
    requires s'.procs == s.procs && s'.inbox.Keys <= s.inbox.Keys
    requires s'.origin == s.origin + [tag]
    requires |s'.db.ledger| == |s.db.ledger| + 1 && s'.db.ledger[..|s.db.ledger|] == s.db.ledger
    requires RowOf(s'.db.ledger[|s.db.ledger|], s.inbox[tag].message)
    ensures RowsLinked(s')
  {
  }

  lemma QuietKeepsLinked(s: System, s': System)
    requires Linked(s) && s'.procs == s.procs && s'.inbox.Keys <= s.inbox.Keys
    requires s'.origin == s.origin && s'.db.ledger == s.db.ledger
    ensures RowsLinked(s')
  {
  }

  lemma HandledKeepsDatagrams(s: System, tag: Tag, done: Responded, dies: bool)
    requires InboxLinked(s) && RepliesLinked(s) && tag in s.inbox
    ensures InboxLinked(Handled(s, tag, done, dies)) && RepliesLinked(Handled(s, tag, done, dies))
  {
  }

  lemma HandledKeepsLinked(s: System, tag: Tag, done: Responded, dies: bool)
    requires Linked(s) && tag in s.inbox
    requires done.db.ledger == s.db.ledger
             || (&& |done.db.ledger| == |s.db.ledger| + 1
                 && done.db.ledger[..|s.db.ledger|] == s.db.ledger
                 && RowOf(done.db.ledger[|s.db.ledger|], s.inbox[tag].message))
    ensures Linked(Handled(s, tag, done, dies))
  {
    var s' := Handled(s, tag, done, dies);
    HandledKeepsDatagrams(s, tag, done, dies);
    if |s'.db.ledger| > |s.db.ledger| {
      RowKeepsLinked(s, s', tag);
    } else {
      QuietKeepsLinked(s, s');
    }
  }

  lemma HandleKeepsLinked(s: System, tag: Tag, env: Env, dies: bool)
    requires Linked(s)
    ensures Linked(StepHandle(s, tag, env, dies))
  {
    if s.running && tag in s.inbox && s.inbox[tag].v == VERSION {
      RespondAddsAtMostOneRow(s.db, s.inbox[tag].message, env);
      HandledKeepsLinked(s, tag, Respond(s.db, s.inbox[tag].message, env), dies);
    } else {
      LossesKeepLinked(s, StepHandle(s, tag, env, dies));
    }
  }

  lemma StepKeepsLinked(c: Crypto, s: System, e: Event)
    requires Linked(s)
    ensures Linked(Step(c, s, e))
  {
    if e.Send? {
      SendKeepsLinked(s, e.pid, e.message);
    } else if e.Handle? {
      HandleKeepsLinked(s, e.tag, e.env, e.dies);
    } else {
      OtherStepsOnlyLose(c, s, e);
      LossesKeepLinked(s, Step(c, s, e));
    }
  }

  // ---------------------------------------------------------------- the books

  lemma StartKeepsSound(s: System, seedFails: bool, now: Time)
    requires Sound(s.seeded, s.db)
    ensures var s' := StepStartCore(s, seedFails, now);
            && Sound(s'.seeded, s'.db) && Ids(s.db.accounts) <= Ids(s'.db.accounts)
            && (s.seeded ==> s'.seeded)
            && (s'.seeded && !s.seeded ==> SEED_ID !in Ids(s.db.accounts))
  {
    if !s.running && !seedFails {
      if s.seeded {
        ReseedingNeverMints(s.db, now);
      } else if SEED_ID !in Ids(s.db.accounts) {
        SeedingIsSound(s.db, now);
      }
    }
  }

  lemma StepKeepsSound(c: Crypto, s: System, e: Event)
    requires Sound(s.seeded, s.db)
    ensures Sound(Step(c, s, e).seeded, Step(c, s, e).db)
    ensures Ids(s.db.accounts) <= Ids(Step(c, s, e).db.accounts)
    ensures s.seeded ==> Step(c, s, e).seeded
    ensures Step(c, s, e).seeded && !s.seeded ==> SEED_ID !in Ids(s.db.accounts)
  {
    if e.Handle? {
      if s.running && e.tag in s.inbox {
        RespondKeepsSound(s.seeded, s.db, s.inbox[e.tag].message, e.env);
      }
    } else if e.StartCore? {
      StartKeepsSound(s, e.seedFails, e.now);
    } else {
      assert Step(c, s, e).db == s.db && Step(c, s, e).seeded == s.seeded;
    }
  }

  // ---------------------------------------------------------------- accounts on their way to a token

  function ReplyClaim(p: ServerPacket): Option<Uuid> {
    match p.message
    case CreateNewAccountResponse(Ok(r)) => Some(r.id)
    case _ => None
  }

  function ProcClaim(p: Proc): Option<Uuid> {
    match p.stage
    case Created(account) => Some(account)
    case _ => None
  }

  /** An account of the core that is not the seed and has no token. */
  ghost predicate Issuable(s: System, id: Uuid) {
    && id in Ids(s.db.accounts)
    && (s.seeded ==> id != SEED_ID)
    && forall k :: 0 <= k < |s.auth| ==> s.auth[k].account != id
  }

  ghost predicate ClaimsIssuable(s: System) {
    && (forall t :: t in s.replies && ReplyClaim(s.replies[t]).Some? ==>
          Issuable(s, ReplyClaim(s.replies[t]).value))
    && (forall i :: 0 <= i < |s.procs| && ProcClaim(s.procs[i]).Some? ==>
          Issuable(s, ProcClaim(s.procs[i]).value))
  }

  /** No account is claimed twice: not by two answers, two clients, or an answer and a client. */
  ghost predicate ClaimsDistinct(s: System) {
    && (forall t, u :: t in s.replies && u in s.replies && t != u && ReplyClaim(s.replies[t]).Some? ==>
          ReplyClaim(s.replies[t]) != ReplyClaim(s.replies[u]))
    && (forall i, j :: 0 <= i < j < |s.procs| && ProcClaim(s.procs[i]).Some? ==>
          ProcClaim(s.procs[i]) != ProcClaim(s.procs[j]))
    && (forall t, i :: t in s.replies && 0 <= i < |s.procs| && ReplyClaim(s.replies[t]).Some? ==>
          ReplyClaim(s.replies[t]) != ProcClaim(s.procs[i]))
  }

  ghost predicate AuthOk(s: System) {
    && (forall k :: 0 <= k < |s.auth| ==>
          s.auth[k].account in Ids(s.db.accounts) && (s.seeded ==> s.auth[k].account != SEED_ID))
    && OneRowEach(s.auth)
  }

  ghost predicate TokensOk(s: System) {
    ClaimsIssuable(s) && ClaimsDistinct(s) && AuthOk(s)
  }

  /** Accounts only come, a seeding can only add an account nobody holds, and claims only go. */
  ghost predicate ClaimsOnlyGo(s: System, s': System) {
    && Ids(s.db.accounts) <= Ids(s'.db.accounts)
    && (s'.seeded ==> s.seeded || SEED_ID !in Ids(s.db.accounts))
    && s'.auth == s.auth
    && (forall t :: t in s'.replies ==> t in s.replies && s'.replies[t] == s.replies[t])
    && (forall i :: 0 <= i < |s'.procs| && ProcClaim(s'.procs[i]).Some? ==>
          i < |s.procs| && ProcClaim(s'.procs[i]) == ProcClaim(s.procs[i]))
  }

  lemma GoingKeepsTokens(s: System, s': System)
    requires TokensOk(s) && ClaimsOnlyGo(s, s')
    ensures TokensOk(s')
  {
  }

  lemma SettleClaims(p: Proc, packet: ServerPacket, result: CallResult)
    requires p.log != [] && (result == NoAnswer || result == Answer(packet.message))
    ensures ProcClaim(Settle(p, result)).Some? ==> ProcClaim(Settle(p, result)) == ReplyClaim(packet)
    ensures result == NoAnswer ==> ProcClaim(Settle(p, result)).None?
  {
  }

  /** A delivered answer hands its claim over to the client; the answer is gone. */
  lemma DeliverKeepsTokens(s: System, tag: Tag, pid: nat)
    requires TokensOk(s)
    ensures TokensOk(StepDeliver(s, tag, pid))
  {
    if tag in s.replies && pid < |s.procs| && s.procs[pid].stage.Waiting? && s.procs[pid].log != [] {
      var s' := StepDeliver(s, tag, pid);
      var p, packet := s.procs[pid], s.replies[tag];
      SettleClaims(p, packet, NoAnswer);
      SettleClaims(p, packet, Answer(packet.message));
      HandoverKeepsTokens(s, s', tag, pid);
    }
  }

  lemma HandoverKeepsTokens(s: System, s': System, tag: Tag, pid: nat)
    requires TokensOk(s) && tag in s.replies && pid < |s.procs| && |s'.procs| == |s.procs|
    requires s'.db == s.db && s'.seeded == s.seeded && s'.auth == s.auth && s'.replies == s.replies - {tag}
    requires forall i :: 0 <= i < |s.procs| && i != pid ==> s'.procs[i] == s.procs[i]
    requires ProcClaim(s'.procs[pid]).Some? ==> ProcClaim(s'.procs[pid]) == ReplyClaim(s.replies[tag])
    ensures TokensOk(s')
  {
  }

  /** Storing the token uses the claim up. */
  lemma IssueKeepsTokens(c: Crypto, s: System, pid: nat, bytes: Bytes, salt: nat, now: Time)
    requires TokensOk(s)
    ensures TokensOk(StepIssueToken(c, s, pid, bytes, salt, now))
  {
    if pid < |s.procs| && s.procs[pid].stage.Created? && |bytes| == TOKEN_BYTES {
      var s' := StepIssueToken(c, s, pid, bytes, salt, now);
      var account := s.procs[pid].stage.account;
      assert ProcClaim(s.procs[pid]) == Some(account);
      assert ProcClaim(s'.procs[pid]).None?;
      forall id | Issuable(s, id) && id != account ensures Issuable(s', id) {
      }
      assert ClaimsIssuable(s');
    }
  }

  /** A created account was nobody's before; a seeded core cannot create the seed again. */
  lemma RespondClaims(seeded: bool, db: Db, packet: ClientPacket, env: Env)
    requires seeded ==> SEED_ID in Ids(db.accounts)
    ensures var done := Respond(db, packet.message, env);
            done.message.Some? && ReplyClaim(AsRespFor(done.message.value, packet)).Some? ==>
              var id := ReplyClaim(AsRespFor(done.message.value, packet)).value;
              id !in Ids(db.accounts) && id in Ids(done.db.accounts) && (seeded ==> id != SEED_ID)
  {
    if packet.message.CreateNewAccount? {
      IdsOfAppended(db.accounts, Account(env.newId, env.created, 0));
    }
  }

  lemma HandledKeepsTokens(s: System, tag: Tag, done: Responded, dies: bool)
    requires TokensOk(s) && tag in s.inbox
    requires Ids(s.db.accounts) <= Ids(done.db.accounts)
    requires done.message.Some? && ReplyClaim(AsRespFor(done.message.value, s.inbox[tag])).Some? ==>
               var id := ReplyClaim(AsRespFor(done.message.value, s.inbox[tag])).value;
               id !in Ids(s.db.accounts) && id in Ids(done.db.accounts) && (s.seeded ==> id != SEED_ID)
    ensures TokensOk(Handled(s, tag, done, dies))
  {
    var s' := Handled(s, tag, done, dies);
    forall id | Issuable(s, id) ensures Issuable(s', id) {
    }
    if !dies && done.message.Some? {
      var reply := AsRespFor(done.message.value, s.inbox[tag]);
      if ReplyClaim(reply).Some? {
        assert Issuable(s', ReplyClaim(reply).value);
      }
      NewReplyClaims(s, s', tag, reply);
    } else {
      GoingKeepsTokens(s, s');
    }
  }

  lemma NewReplyClaims(s: System, s': System, tag: Tag, reply: ServerPacket)
    requires TokensOk(s) && s'.procs == s.procs && s'.auth == s.auth && s'.seeded == s.seeded
    requires Ids(s.db.accounts) <= Ids(s'.db.accounts)
    requires s'.replies == s.replies[tag := reply]
    requires ReplyClaim(reply).Some? ==>
               Issuable(s', ReplyClaim(reply).value) && ReplyClaim(reply).value !in Ids(s.db.accounts)
    ensures TokensOk(s')
  {
  }

  lemma SendOnlyLetsGo(s: System, pid: nat, message: Uuid)
    ensures ClaimsOnlyGo(s, StepSend(s, pid, message))
  {
  }

  lemma TimeOutOnlyLetsGo(s: System, pid: nat)
    ensures ClaimsOnlyGo(s, StepTimeOut(s, pid))
  {
  }

  lemma ClearOnlyLetsGo(c: Crypto, s: System, pid: nat, now: Time)
    ensures ClaimsOnlyGo(s, StepClear(c, s, pid, now))
  {
  }

  lemma ClientsOnlyLetGo(c: Crypto, s: System, e: Event)
    requires e.TimeOut? || e.Clear? || e.Kill?
    ensures ClaimsOnlyGo(s, Step(c, s, e))
  {
    if e.TimeOut? {
      TimeOutOnlyLetsGo(s, e.pid);
    } else if e.Clear? {
      ClearOnlyLetsGo(c, s, e.pid, e.now);
    }
  }

  lemma OtherStepsOnlyLetGo(c: Crypto, s: System, e: Event)
    requires e.StartCore? || e.StopCore? || e.Spawn? || e.LoseRequest? || e.LoseReply?
    ensures ClaimsOnlyGo(s, Step(c, s, e))
  {
    if e.StartCore? {
      IdsOfAppended(s.db.accounts, SeedAccount());
      assert Step(c, s, e).procs == s.procs;
    }
  }

  lemma RespondKeepsIds(db: Db, m: ClientMessage, env: Env)
    ensures Ids(db.accounts) <= Ids(Respond(db, m, env).db.accounts)
  {
    if m.CreateNewAccount? {
      IdsOfAppended(db.accounts, Account(env.newId, env.created, 0));
    } else if m.CreateTransaction? {
      var t := Transaction(env.newId, env.created, m.sender, m.receiver, m.amount, 0);
      SameIds(Credited(db.accounts, t), db.accounts);
    }
  }

  lemma StepKeepsTokens(c: Crypto, s: System, e: Event)
    requires TokensOk(s)
    requires s.seeded ==> SEED_ID in Ids(s.db.accounts)
    ensures TokensOk(Step(c, s, e))
  {
    if e.Handle? {
      if s.running && e.tag in s.inbox && s.inbox[e.tag].v == VERSION {
        RespondKeepsIds(s.db, s.inbox[e.tag].message, e.env);
        RespondClaims(s.seeded, s.db, s.inbox[e.tag], e.env);
        HandledKeepsTokens(s, e.tag, Respond(s.db, s.inbox[e.tag].message, e.env), e.dies);
      } else {
        GoingKeepsTokens(s, StepHandle(s, e.tag, e.env, e.dies));
      }
    } else if e.Deliver? {
      DeliverKeepsTokens(s, e.tag, e.pid);
    } else if e.IssueToken? {
      IssueKeepsTokens(c, s, e.pid, e.bytes, e.salt, e.now);
    } else {
      if e.Send? {
        SendOnlyLetsGo(s, e.pid, e.message);
      } else if e.TimeOut? || e.Clear? || e.Kill? {
        ClientsOnlyLetGo(c, s, e);
      } else {
        OtherStepsOnlyLetGo(c, s, e);
      }
      GoingKeepsTokens(s, Step(c, s, e));
    }
  }

  // ---------------------------------------------------------------- token-gated requests

  predicate Accepts(c: Crypto, token: seq<Ascii>, hash: Hash) {
    Parse(token).Ok? && c.verify(Parse(token).value, hash) == Some(true)
  }

  /** The token presented for the account matches a hash stored for that account. */
  ghost predicate Entitled(c: Crypto, auth: seq<AuthRow>, account: Uuid, token: seq<Ascii>) {
    exists k :: 0 <= k < |auth| && auth[k].account == account && Accepts(c, token, auth[k].hash)
  }

  /** A gateway request past its token check, and so every one that reached the core, was entitled. */
  ghost predicate GateOk(c: Crypto, s: System) {
    forall i :: 0 <= i < |s.procs| && s.procs[i].job.Gated? && (s.procs[i].stage.Cleared? || s.procs[i].log != []) ==>
      Entitled(c, s.auth, s.procs[i].job.account, s.procs[i].job.token)
  }

  lemma ValidMeansEntitled(c: Crypto, rows: seq<AuthRow>, token: seq<Ascii>, account: Uuid, now: Time)
    requires Validate(c, rows, token, account, now) == Ok(true)
    ensures Entitled(c, rows, account, token)
  {
    var found := RowsOf(rows, account);
    var k := ScanFromDecides(c, found, Parse(token).value, now, 0);
    assert Verdict(c, found[k], Parse(token).value, now) == Ok(true);
    var answer := c.verify(Parse(token).value, found[k].hash);
    assert answer.Some? && answer.value;
    assert found[k] in found;
    var j :| 0 <= j < |rows| && rows[j] == found[k];
    assert Accepts(c, token, rows[j].hash);
  }

  /** A client past the gate was there before. */
  ghost predicate NobodyPassesGate(procs: seq<Proc>, procs': seq<Proc>) {
    forall i :: 0 <= i < |procs'| && procs'[i].job.Gated? && (procs'[i].stage.Cleared? || procs'[i].log != []) ==>
      i < |procs| && procs[i].job == procs'[i].job && (procs[i].stage.Cleared? || procs[i].log != [])
  }

  lemma GateStaysOk(c: Crypto, s: System, s': System)
    requires GateOk(c, s) && s.auth <= s'.auth && NobodyPassesGate(s.procs, s'.procs)
    ensures GateOk(c, s')
  {
  }

  lemma SendPassesNobody(s: System, pid: nat, message: Uuid)
    ensures NobodyPassesGate(s.procs, StepSend(s, pid, message).procs)
  {
  }

  lemma DeliverPassesNobody(s: System, tag: Tag, pid: nat)
    ensures NobodyPassesGate(s.procs, StepDeliver(s, tag, pid).procs)
  {
  }

  lemma TimeOutPassesNobody(s: System, pid: nat)
    ensures NobodyPassesGate(s.procs, StepTimeOut(s, pid).procs)
  {
  }

  lemma ClearKeepsGate(c: Crypto, s: System, pid: nat, now: Time)
    requires GateOk(c, s) && ProcsOk(s)
    ensures GateOk(c, StepClear(c, s, pid, now))
  {
    if pid < |s.procs| && s.procs[pid].job.Gated? {
      var job := s.procs[pid].job;
      if Validate(c, s.auth, job.token, job.account, now) == Ok(true) {
        ValidMeansEntitled(c, s.auth, job.token, job.account, now);
      }
    }
  }

  lemma CorePassesNobody(c: Crypto, s: System, e: Event)
    requires e.StartCore? || e.StopCore? || e.Handle? || e.LoseRequest? || e.LoseReply?
    ensures Step(c, s, e).procs == s.procs && Step(c, s, e).auth == s.auth
  {
  }

  lemma OthersPassNobody(c: Crypto, s: System, e: Event)
    requires e.Spawn? || e.IssueToken? || e.Kill?
    ensures NobodyPassesGate(s.procs, Step(c, s, e).procs) && s.auth <= Step(c, s, e).auth
  {
  }

  lemma StepKeepsGate(c: Crypto, s: System, e: Event)
    requires GateOk(c, s) && ProcsOk(s)
    ensures GateOk(c, Step(c, s, e))
  {
    if e.Clear? {
      ClearKeepsGate(c, s, e.pid, e.now);
    } else {
      if e.Send? {
        SendPassesNobody(s, e.pid, e.message);
      } else if e.Deliver? {
        DeliverPassesNobody(s, e.tag, e.pid);
      } else if e.TimeOut? {
        TimeOutPassesNobody(s, e.pid);
      } else if e.Spawn? || e.IssueToken? || e.Kill? {
        OthersPassNobody(c, s, e);
      } else {
        CorePassesNobody(c, s, e);
      }
      GateStaysOk(c, s, Step(c, s, e));
    }
  }

  // ---------------------------------------------------------------- all of it

  ghost predicate Inv(c: Crypto, s: System) {
    && Sound(s.seeded, s.db) && ProcsOk(s) && SnapshotsOk(s) && Linked(s) && TokensOk(s) && GateOk(c, s)
  }

  lemma StepKeepsInv(c: Crypto, s: System, e: Event)
    requires Inv(c, s)
    ensures Inv(c, Step(c, s, e))
  {
    StepKeepsSound(c, s, e);
    StepKeepsProcs(c, s, e);
    StepKeepsSnapshots(c, s, e);
    StepKeepsLinked(c, s, e);
    StepKeepsTokens(c, s, e);
    StepKeepsGate(c, s, e);
  }

  lemma {:induction false} RunKeepsInv(c: Crypto, s: System, events: seq<Event>)
    requires Inv(c, s)
    ensures Inv(c, Run(c, s, events))
  {
    if events != [] {
      RunKeepsInv(c, s, events[..|events| - 1]);
      StepKeepsInv(c, Run(c, s, events[..|events| - 1]), events[|events| - 1]);
    }
  }

  lemma InvFromTheStart(c: Crypto, events: seq<Event>)
    ensures Inv(c, Run(c, INITIAL, events))
  {
    assert NeverOverdrawn([], false);
    RunKeepsInv(c, INITIAL, events);
  }
}
