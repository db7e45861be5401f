/**
 The running system: one core, one gateway and any number of tool runs, exchanging datagrams that
 may be lost, delayed or misdelivered, with crashes and restarts at any point.

 A run is a list of events. An event that cannot happen in the current state changes nothing, so
 every list of events is a run. Events carry everything that is drawn from outside: identifiers,
 clocks, random bytes.
 */
module Machine {
  import opened Basics
  import opened Messages
  import opened Tables
  import opened Hex
  import opened Auth

  // ---------------------------------------------------------------- clients

  /** What a gateway user asks about an account, once the token is accepted. */
  datatype Ask =
    | AskAccount
    | AskTransactions(begin: Time, end: Time)
    | AskTransaction(transaction: Uuid)
    | AskTransfer(receiver: Uuid, amount: I64)

  function Question(account: Uuid, ask: Ask): ClientMessage {
    match ask
    case AskAccount => GetAccount(account)
    case AskTransactions(begin, end) => GetTransactions(account, begin, end)
    case AskTransaction(id) => GetTransaction(account, id)
    case AskTransfer(receiver, amount) => CreateTransaction(account, receiver, amount)
  }

  /** One gateway request, or one run of a tool. */
  datatype Job =
    | CreateAccount
    | Gated(account: Uuid, token: seq<Ascii>, ask: Ask)
    | SeedTx(receiver: Uuid, amount: I64)
    | Stipend(minimum: I64, amount: I64)

  /** The most that either tool lets through. */
  const TOOL_LIMIT: int := 100

  datatype CallResult = Pending | NoAnswer | Answer(message: ServerMessage)

  /** One use of send_and_recv_msg. */
  datatype Call = Call(packet: ClientPacket, result: CallResult)

  datatype Stage =
    | Fresh                   // nothing done yet
    | Cleared                 // the token was accepted
    | Waiting                 // the last call has no result yet
    | Created(account: Uuid)  // the core made the account, its token is not stored yet
    | Paying                  // between two stipend payments
    | Finished

  /** `snapshot` is the stipend's list of eligible accounts; `log` is the history of calls. */
  datatype Proc = Proc(job: Job, stage: Stage, snapshot: seq<Account>, log: seq<Call>)

  /** Accounts at or below the minimum, in the order of the answer. */
  function Eligible(rows: seq<Account>, minimum: int): (r: seq<Account>)
    ensures forall a :: a in r ==> a in rows && a.funds <= minimum
  {
    if rows == [] then []
    else
      var rest := Eligible(rows[..|rows| - 1], minimum);
      if rows[|rows| - 1].funds <= minimum then rest + [rows[|rows| - 1]] else rest
  }

  /** The message a client sends next, if it has one to send. */
  function NextMessage(p: Proc): Option<ClientMessage> {
    match p.job
    case CreateAccount => if p.stage.Fresh? then Some(CreateNewAccount) else None
    case Gated(account, _, ask) => if p.stage.Cleared? then Some(Question(account, ask)) else None
    case SeedTx(receiver, amount) =>
      if p.stage.Fresh? && amount <= TOOL_LIMIT then Some(CreateTransaction(SEED_ID, receiver, amount)) else None
    case Stipend(_, amount) =>
      if p.stage.Fresh? && amount <= TOOL_LIMIT then Some(GetAccounts)
      else if p.stage.Paying? && 1 <= |p.log| <= |p.snapshot| then
        Some(CreateTransaction(SEED_ID, p.snapshot[|p.log| - 1].id, amount))
      else None
  }

  /** Record the result of the last call and move on; a tool that got no answer panics. */
  function Settle(p: Proc, result: CallResult): Proc
    requires p.log != []
  {
    var last := |p.log| - 1;
    var q := p.(log := p.log[last := p.log[last].(result := result)]);
    match (p.job, result)
    case (CreateAccount, Answer(CreateNewAccountResponse(Ok(r)))) => q.(stage := Created(r.id))
    case (Stipend(minimum, _), Answer(GetAccountsResponse(Ok(rows)))) =>
      if last == 0 then q.(stage := Paying, snapshot := Eligible(rows, minimum)) else q.(stage := Finished)
    case (Stipend(_, _), Answer(CreateTransactionResponse(_))) =>
      if last == 0 then q.(stage := Finished) else q.(stage := Paying)
    case _ => q.(stage := Finished)
  }

  // ---------------------------------------------------------------- the system

  /** The n-th call of the n-th client; a history label that no component reads. */
  datatype Tag = Tag(pid: nat, call: nat)

  datatype System = System(
    running: bool,               // the core is up
    seeded: bool,                // history: a startup has inserted the seed account
    db: Db,                      // capycoin.db3
    auth: seq<AuthRow>,          // auth.db3
    procs: seq<Proc>,
    inbox: map<Tag, ClientPacket>,
    replies: map<Tag, ServerPacket>,
    origin: seq<Tag>)            // history: the call behind each ledger row

  const INITIAL: System := System(false, false, Db([], []), [], [], map[], map[], [])

  datatype Event =
    | StartCore(seedFails: bool, now: Time)
    | StopCore
    | Spawn(job: Job)
    | Clear(pid: nat, now: Time)
    | Send(pid: nat, message: Uuid)
    | Handle(tag: Tag, env: Env, dies: bool)
    | LoseRequest(tag: Tag)
    | LoseReply(tag: Tag)
    | Deliver(tag: Tag, pid: nat)
    | TimeOut(pid: nat)
    | IssueToken(pid: nat, bytes: Bytes, salt: nat, now: Time)
    | Kill(pid: nat)

  /**
   The core starts: tables exist, the seed account is inserted unless it is there. When that insert
   fails for a reason other than the key (`seedFails`), the core reports it and serves all the same.
   */
  function StepStartCore(s: System, seedFails: bool, now: Time): System {
    if s.running then s
    else
      var saved := InsertSeed(s.db, seedFails, now);
      s.(running := true, db := saved.db, seeded := s.seeded || saved.result.Ok?)
  }

  function StepClear(c: Crypto, s: System, pid: nat, now: Time): System {
    if pid < |s.procs| && s.procs[pid].job.Gated? && s.procs[pid].stage.Fresh? then
      var p := s.procs[pid];
      var ok := Validate(c, s.auth, p.job.token, p.job.account, now) == Ok(true);
      s.(procs := s.procs[pid := p.(stage := if ok then Cleared else Finished)])
    else s
  }

  /** With no core listening the connection is refused and the call has no answer. */
  function StepSend(s: System, pid: nat, message: Uuid): System {
    if pid < |s.procs| && NextMessage(s.procs[pid]).Some? then
      var p := s.procs[pid];
      var packet := ClientPacket(VERSION, message, NextMessage(p).value);
      var q := p.(stage := Waiting, log := p.log + [Call(packet, Pending)]);
      if s.running then s.(procs := s.procs[pid := q], inbox := s.inbox[Tag(pid, |p.log|) := packet])
      else s.(procs := s.procs[pid := Settle(q, NoAnswer)])
    else s
  }

  /** One turn of the core's loop. */
  function StepHandle(s: System, tag: Tag, env: Env, dies: bool): System {
    if !s.running || tag !in s.inbox then s
    else if s.inbox[tag].v != VERSION then s.(inbox := s.inbox - {tag})
    else Handled(s, tag, Respond(s.db, s.inbox[tag].message, env), dies)
  }

  /**
   After the handler is done. The core may be gone before it answers (`dies`): what was committed
   stays, the other requests in its socket are lost.
   */
  function Handled(s: System, tag: Tag, done: Responded, dies: bool): System
    requires tag in s.inbox
  {
    var kept := s.(
      db := done.db,
      inbox := s.inbox - {tag},
      origin := if |done.db.ledger| > |s.db.ledger| then s.origin + [tag] else s.origin);
    if dies || done.message.None? then kept.(running := false, inbox := map[])
    else kept.(replies := s.replies[tag := AsRespFor(done.message.value, s.inbox[tag])])
  }

  /** Any datagram may reach any waiting client; the identifier decides what is made of it. */
  function StepDeliver(s: System, tag: Tag, pid: nat): System {
    if tag in s.replies && pid < |s.procs| && s.procs[pid].stage.Waiting? && s.procs[pid].log != [] then
      var p := s.procs[pid];
      var result := match Accept(p.log[|p.log| - 1].packet, s.replies[tag])
                    case Some(m) => Answer(m)
                    case None => NoAnswer;
      s.(procs := s.procs[pid := Settle(p, result)], replies := s.replies - {tag})
    else s
  }

  function StepTimeOut(s: System, pid: nat): System {
    if pid < |s.procs| && s.procs[pid].stage.Waiting? && s.procs[pid].log != [] then
      s.(procs := s.procs[pid := Settle(s.procs[pid], NoAnswer)])
    else s
  }

  function StepIssueToken(c: Crypto, s: System, pid: nat, bytes: Bytes, salt: nat, now: Time): System {
    if pid < |s.procs| && s.procs[pid].stage.Created? && |bytes| == TOKEN_BYTES then
      var p := s.procs[pid];
      s.(auth := s.auth + [NewRow(c, p.stage.account, bytes, salt, now)],
         procs := s.procs[pid := p.(stage := Finished)])
    else s
  }

  function Step(c: Crypto, s: System, e: Event): System {
    match e
    case StartCore(seedFails, now) => StepStartCore(s, seedFails, now)
    case StopCore => s.(running := false, inbox := map[])
    case Spawn(job) => s.(procs := s.procs + [Proc(job, Fresh, [], [])])
    case Clear(pid, now) => StepClear(c, s, pid, now)
    case Send(pid, message) => StepSend(s, pid, message)
    case Handle(tag, env, dies) => StepHandle(s, tag, env, dies)
    case LoseRequest(tag) => s.(inbox := s.inbox - {tag})
    case LoseReply(tag) => s.(replies := s.replies - {tag})
    case Deliver(tag, pid) => StepDeliver(s, tag, pid)
    case TimeOut(pid) => StepTimeOut(s, pid)
    case IssueToken(pid, bytes, salt, now) => StepIssueToken(c, s, pid, bytes, salt, now)
    case Kill(pid) =>
      if pid < |s.procs| then s.(procs := s.procs[pid := s.procs[pid].(stage := Finished)]) else s
  }

  function Run(c: Crypto, s: System, events: seq<Event>): System {
    if events == [] then s
    else Step(c, Run(c, s, events[..|events| - 1]), events[|events| - 1])
  }
}
