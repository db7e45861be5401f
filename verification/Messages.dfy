/** The records of the accounts and transactions tables, and the packets exchanged with the core. */
module Messages {
  import opened Basics

  datatype Account = Account(id: Uuid, created: Time, funds: int)

  datatype AccountCreated = AccountCreated(id: Uuid, timestamp: Time)

  /** StorageFailed stands for every error of the database other than a violated constraint. */
  datatype AccountError = AccountAlreadyExists | AccountDoesNotExist | StorageFailed

  datatype Transaction = Transaction(
    id: Uuid, timestamp: Time, sender: Uuid, receiver: Uuid, amount: I64, fee: I32)

  datatype Receipt = Receipt(
    id: Uuid, timestamp: Time, sender: Uuid, receiver: Uuid, senderFunds: int, fee: I32)

  /** IntegerOverflow stands for the REAL that SQLite stores when an integer sum leaves 64 bits. */
  datatype SqlError = UniqueViolation | CheckViolation | IntegerOverflow

  datatype TransactionError =
    | SQLError(cause: SqlError)
    | AmountIsZero
    | AmountIsNegative
    | FeeIsNegative
    | SenderAccountNotEnoughFunds
    | SenderAccountDoesNotExist
    | ReceiverAccountDoesNotExist
    | SenderReceiverAreTheSame
    | TransactionDoesNotExist
    | PermissionDenied

  datatype ClientMessage =
    | CreateNewAccount
    | GetAccount(account: Uuid)
    | GetAccounts
    | GetTransactions(account: Uuid, begin: Time, end: Time)
    | GetTransaction(account: Uuid, transaction: Uuid)
    | CreateTransaction(sender: Uuid, receiver: Uuid, amount: I64)

  datatype ServerMessage =
    | CreateNewAccountResponse(created: Result<AccountCreated, AccountError>)
    | GetAccountResponse(account: Result<Account, AccountError>)
    | GetAccountsResponse(accounts: Result<seq<Account>, AccountError>)
    | GetTransactionsResponse(rows: Result<seq<Transaction>, TransactionError>)
    | GetTransactionResponse(row: Result<Transaction, TransactionError>)
    | CreateTransactionResponse(receipt: Result<Receipt, TransactionError>)

  const VERSION: int := 1

  datatype ClientPacket = ClientPacket(v: int, id: Uuid, message: ClientMessage)

  datatype ServerPacket = ServerPacket(v: int, id: Uuid, message: ServerMessage)

  /** A response carries the identifier of the packet it answers. */
  function AsRespFor(message: ServerMessage, packet: ClientPacket): ServerPacket {
    ServerPacket(VERSION, packet.id, message)
  }

  /** What a client makes of a datagram while it waits for the answer to `packet`. */
  function Accept(packet: ClientPacket, reply: ServerPacket): (r: Option<ServerMessage>)
    ensures r.Some? <==> reply.v == VERSION && reply.id == packet.id
    ensures r.Some? ==> r.value == reply.message
  {
    if reply.v != VERSION then None
    else if reply.id != packet.id then None
    else Some(reply.message)
  }

  const SEED_ID: Uuid := 0x4e9b_616a_f11e_48b6_8c2f_9534_d482_e48e
  const SEED_FUNDS: int := 1000 * 100

  /** 2000-01-01 00:00 UTC */
  const SEED_STAMP: Time := 946684800

  function SeedAccount(): Account {
    Account(SEED_ID, SEED_STAMP, SEED_FUNDS)
  }
}
