# CapyCoin, modelled and proved

CapyCoin is a closed-circulation money system. A single-threaded core keeps an accounts table and an
append-only ledger in one database and answers datagrams one at a time. A gateway keeps access tokens in a
second database and forwards requests of token holders. Two trusted tools, `seed_tx` and `stipend`, pay coin
out of the seed account. This project models those parts together and proves what holds of the whole.

| file | content |
|---|---|
| `Basics.dfy`, `Messages.dfy` | 64-bit integers, 128-bit identifiers, table records, packets |
| `Tables.dfy` | the two tables as values; the meaning of every request, without statement order |
| `Store.dfy` | the database connection: requests as statements on the working copy of a transaction, committed or dropped; proved equal to `Tables.dfy` |
| `Bookkeeping.dfy` | conservation, cuts, replay, prefixes, order independence, constraint safety |
| `Queries.dfy` | agreement of the two ways to read the ledger, double counting |
| `Answers.dfy` | what every request comes to, said of balances and rows alone |
| `Hex.dfy`, `Auth.dfy` | the token printer and parser, issuing and validating tokens |
| `Machine.dfy` | the running system: events for starts, crashes, losses, timeouts, misdelivery and every client step |
| `Safety.dfy` | the invariant of the system, kept by each of its twelve events |
| `Guarantees.dfy` | what follows for every reachable state of every run |
| `Delivery.dfy` | what an accepted answer, a refusal or silence tells a client about the ledger |
| `Gateway.dfy` | calls that are answered, and the gateway end to end: new accounts, their tokens, requests with them |
| `Clients.dfy` | what each client does for its user: the gate, payments, how calls end, what silence leaves open, restarts |
| `SeedTokens.dfy` | exactly when the seed account can come by a token |
| `History.dfy` | the moment of the run each answer is from, and what an accepted answer is worth later |
| `StipendRun.dfy` | one stipend run: its bound under interleaving, its exact outcome alone |

How it is modelled:

- A run is any list of events; an event that cannot happen changes nothing. Identifiers, clocks, random
  bytes and SQLite's visiting order are carried by the events, so they are arbitrary: identifiers may
  collide and clocks may run backwards. Where a theorem needs identifiers not to repeat it says so
  (`FreshIds` for message identifiers, `FreshTape` for the transaction identifiers of one stipend run).
- `seeded`, `origin` and the labels of requests are history: no component reads them.
- bcrypt is a pair of functions (`Auth.Crypto`); the only assumption about it is that a token matches a hash
  made from it, and only where a theorem says `Faithful`.
- Times are whole numbers; the time of a token's expiry is 30 days after the clock reading it was issued at.

Where the code and its documentation differ, the code is followed:

- The documentation says the seed account is not accessible from the gateway (README.md:52). When inserting
  the seed fails for a reason other than an existing key, the core reports it and serves all the same
  (src/bin/core.rs:205-208). `SeedTokens.UnseededCoreMayIssueSeedToken` gives the run in which a random
  identifier then hits the seed's and a token is issued for it. The claim holds under an exact condition:
  `SeedTokens.FailedSeedingDecides` (at a start that finds the seed's identifier free, the claim is lost
  if and only if the insert fails), `SeedTokens.SeedTokenPossibleIffExposed` (for any reachable state) and
  `SeedTokens.ServingIsSafeExactlyThen` (for whole runs). `Guarantees.SeedHasNoToken` proves the claim for
  every state in which the circulation exists.
- Any violated constraint on `accounts`, the CHECK included, is reported as an existing account
  (src/account.rs:133-136).

## Model

| member | source | states |
|---|---|---|
| Bookkeeping.LeastFailureDecides | src/ledger.rs:136-197 | a transfer reports the error of a condition if and only if that condition, stated on balances and the ledger alone, is the first to fail in the order zero, negative, negative fee, same party, fee assertion (a panic), no sender, not enough funds, no receiver, overflow, duplicate id; it commits if and only if none fails |
| Bookkeeping.TransferRefinesPayment | src/ledger.rs:157-215 | on balances a transfer commits if and only if all conditions hold; then the sender loses amount and fee, the receiver gains the amount and one row is appended; otherwise both tables are unchanged |
| Bookkeeping.TransferHasMeaning | src/ledger.rs:136-225 | outcome and tables together: the first failing condition's error with both tables unchanged, or the payment on balances, rows otherwise unchanged in place, one row stamped by the core's clock, and a receipt of it with the sender's remaining funds |
| Store.Connection.SaveTransaction | src/ledger.rs:136-225 | the statements on the working copy, then commit or drop, give exactly the tables and the outcome of the simultaneous transfer, after an early return too; and, said without it, the first failing condition's error and unchanged tables, or the payment, its row and its receipt |
| Store.Connection.MoveFunds | src/ledger.rs:159-197 | the absolute write to the sender followed by the relative one to the receiver, with no 64-bit overflow in the deduction, changes the rows as the transfer does or reports the first failing balance condition |
| Store.Connection.TransferStatements | src/ledger.rs:157-213 | inside the open transaction a duplicate id is found after both balances were written in the working copy; committed rows are not touched |
| Store.Connection.SaveAccount | src/account.rs:125-146 | an account is appended unless a constraint is violated, and every violation is reported as an existing account |
| Store.Connection.LoadAccount | src/account.rs:148-166 | the account with that key, or that there is none |
| Store.Connection.GetAccounts | src/account.rs:168-183 | the row loop returns the whole table in order |
| Store.Connection.GetTransactions | src/ledger.rs:227-256 | the row loop over any visiting order returns exactly the account's rows in the closed time range |
| Store.Connection.GetTransaction | src/ledger.rs:258-285 | the row to a party of it, permission denied to others, does-not-exist without a row |
| Store.MessageDispatch | src/bin/core.rs:148-190 | each message is answered under the identifier of its packet, with the effect and the answer its request has on balances and rows; a transfer is carried out whoever sends it exactly when nothing stands against it |
| Store.SeedOnStart | src/bin/core.rs:205-208 | every start tries to insert the seed and goes on whether that worked, met the existing key, or failed otherwise; the tables and the result are those of the modelled start |
| Store.Connection.CrashInTransfer | src/ledger.rs:157-215 | dying after any number of the statements of an open transfer leaves the committed tables as they were |
| Bookkeeping.ReseedingNeverMints | src/bin/core.rs:205-208 | seeding a database that has the seed fails and changes nothing |
| Bookkeeping.CutLaw | src/ledger.rs:179-213 | the coin of any set of accounts is its opening coin plus ledger inflow across the cut minus outflow |
| Bookkeeping.Conservation | src/ledger.rs:157-215 | all coin together is the seed's opening coin, for every sound state of the tables |
| Bookkeeping.CoinOutsideSeed | src/ledger.rs:179-213 | coin outside the seed equals what the seed sent minus what it received |
| Bookkeeping.ReplayGivesBalances | src/ledger.rs:170-213 | the accounts table equals the ledger replayed from the opening balances |
| Bookkeeping.PrefixesReplayNonNegative | src/ledger.rs:170-177 | every prefix of the ledger replays to balances of at least zero for every account |
| Bookkeeping.OrderIndependence | src/ledger.rs:170-213 | every permutation of the ledger replays to the same balances |
| Bookkeeping.BalanceIsReplayed | src/ledger.rs:170-224 | the balance a receipt states is the one replay gives for the same prefix |
| Bookkeeping.ReceiptIsTrue | src/ledger.rs:199-224 | a receipt's parties, id, fee and time are those of the row stored with it, and its funds the sender's balance with that row |
| Bookkeeping.FittingTotalsNeverOverflow | src/ledger.rs:170-197 | for any tables whose total fits in 64 bits no receiver update overflows, and every transfer keeps the total |
| Bookkeeping.OnlyDuplicateIdsFail | src/ledger.rs:86-95 | over sound tables the fee assertion is not reached, no sum leaves 64 bits, no CHECK fires and a repeated id is the only constraint that fails |
| Bookkeeping.TransferKeepsSound | src/ledger.rs:136-225 | a transfer, committed or not, keeps keys unique, every row well-formed, every balance explained by the ledger and no account overdrawn in any prefix |
| Queries.QueriesAgree | src/ledger.rs:227-285 | looking up a row succeeds if and only if the same row is in the account's history over a covering range; both errors are characterised |
| Queries.SelectIgnoresOrder | src/ledger.rs:236-253 | the rows returned do not depend on the order the table is visited in |
| Queries.SelectKeepsOrder | src/ledger.rs:244-253 | the rows returned are in the order of the visit: the selection of a concatenation is the concatenation of the selections |
| Queries.QueryAnswers | src/bin/core.rs:155-177 | each query changes nothing and answers with the account asked for, all accounts, or each row of the account in the range as often as it is stored |
| Queries.SaveThenLoad | src/account.rs:125-166 | a saved account is loaded as saved, others as before; saving works exactly when the key is free and the funds are not negative, and otherwise changes nothing and reports an existing account |
| Queries.CommittedRowIsShared | src/ledger.rs:258-285 | a row one party can read is read unchanged by both parties, and nobody else, over every longer ledger |
| Queries.HistoriesCountTwice | src/ledger.rs:239 | history lengths over all accounts sum to twice the ledger |
| Answers.TransferRequest | src/bin/core.rs:178-186 | a dispatched transfer answers with a receipt if and only if the amount is positive, the parties differ and exist, the sender has it, no sum leaves 64 bits and the drawn id is new; then exactly the two balances move, one row is appended and the receipt states it; otherwise the tables stay and the answer is the first failing condition's error |
| Answers.SeedingRequest | src/account.rs:111-146 | the seeding insert adds one account with the seed's identifier, its fixed date and 100,000 coin if none has that identifier, and otherwise, or when storage fails, changes nothing and says which |
| Answers.RowRequest | src/ledger.rs:258-285 | over unique ids the answer is the row if and only if it is stored and the account is its sender or receiver, permission denied if and only if it is stored for others, does-not-exist otherwise |
| Answers.HistoryRequest | src/ledger.rs:227-256 | the answer holds each row the account sent or received with a time in the closed range exactly as often as it is stored, and nothing else, in whatever order the table is visited |
| Answers.AccountRequest | src/account.rs:148-166 | the answer is the stored account with that key, or that there is none |
| Answers.EveryRequestIsAnswered | src/bin/core.rs:148-190 | dispatch answers every message, creations and queries included, with the effect and answer said on the rows, and changes nothing else |
| Hex.Display | src/auth.rs:118-126 | the loop over the bytes prints the text the parser results are stated about |
| Hex.RoundTrip | src/auth.rs:90-126 | every 128-byte token is read back from its print |
| Hex.PrintIsInjective | src/auth.rs:118-126 | different tokens have different prints |
| Hex.PrintAt | src/auth.rs:118-126 | each byte is two digits of the upper-case base 16 alphabet of section 8 of RFC 4648, high digit first |
| Hex.ParseNormalises | src/auth.rs:90-103 | which texts are read, when the length is the error, and that printing the result gives the text in upper case with each leading plus sign as a zero |
| Hex.SameTokenSameNormalForm | src/auth.rs:90-103 | two readable texts denote the same token exactly when their normal forms agree |
| Auth.AuthDb.CreateToken | src/auth.rs:128-151 | one row with the hash of the token and an expiry 2,592,000 seconds on; the text handed out is the token's print and reads back as the token |
| Auth.AuthDb.ValidateToken | src/auth.rs:153-179 | parser and row loop give the verdict that is right of the whole table |
| Auth.AuthDb.ScanRows | src/auth.rs:159-178 | the loop with its counter returns the verdict of the scan over the account's rows |
| Auth.ValidateGivesRightVerdict | src/auth.rs:153-179 | over the whole table: a length error if and only if the text has not 256 characters, a parse error if and only if it is otherwise outside the language, does-not-exist if and only if it parses and no row has the account, a plain no if and only if some row has it and every such row mismatches, otherwise the account's first row that is not a mismatch decides by its hash and expiry |
| Auth.AnswerIgnoresOrder | src/auth.rs:156-173 | with one row per account the answer is the same for every order of the table |
| Safety.EligibleKeepsOrder | src/bin/stipend.rs:36-38 | the filter keeps exactly the accounts at or below the minimum, each as often as it occurs, in order |
| Safety.DeliverKeepsTokens | src/bin/client_gateway.rs:61-66 | an accepted answer hands the new account over to one client only, and a rejected one to none |
| Safety.HandleKeepsLinked | src/bin/core.rs:102-141 | one turn of the server loop, with or without a crash after the commit, ties a new row to the one request it came from |
| Safety.SendKeepsLinked | src/client_util.rs:57-63 | a request is sent once, under a label no request, answer or row has yet |
| Safety.StepKeepsTokens | src/bin/client_gateway.rs:53-94 | across both databases each account on its way to a token is claimed once, has no token yet and is not the seed of an existing circulation |
| Safety.StepKeepsLinked | src/bin/core.rs:102-141 | every ledger row stems from one request of one client and no request is behind two rows, whatever is lost, delayed or crashed |
| Safety.StepKeepsGate | src/bin/client_gateway.rs:96-118 | a gateway request past its token check was made with a token that matches a hash stored for its account |
| Safety.StepKeepsProcs | src/bin/stipend.rs:36-64 | each client only ever sends the messages its job allows, the tools never above their limit |
| Safety.InvFromTheStart | src/bin/core.rs:192-237 | the whole invariant holds in every state of every run |
| Guarantees.TotalIsFixed | src/account.rs:115-146 | in every reachable state the total is nothing before seeding and exactly 100000 after it |
| Guarantees.FirstSeedingFixesTotal | src/bin/core.rs:195-208 | after the start that first inserts the seed the total is 100,000 in every later state, through any messages, failures, crashes and restarts |
| Guarantees.LedgerExplainsBalances | src/ledger.rs:170-213 | in every reachable state the table is the ledger replayed and no prefix overdraws an account |
| Guarantees.CutsBalance | src/ledger.rs:179-213 | the cut law in every reachable state |
| Guarantees.DispatchAlwaysAnswers | src/bin/core.rs:178-189 | in every reachable state every message is answered, and a constraint error is a repeated transaction id |
| Guarantees.SeedHasNoToken | src/bin/client_gateway.rs:62-79 | in every reachable state tokens belong to existing accounts, one each, and to the seed never once the circulation exists |
| SeedTokens.SeedTokenPossibleIffExposed | src/bin/client_gateway.rs:53-94 | in every reachable state some continuation gives the seed a token if and only if its identifier is free, claimed by an answer in flight, claimed by a gateway request, or has a token |
| SeedTokens.FailedSeedingDecides | src/bin/core.rs:205-208 | at a start that finds the seed's identifier free, some continuation gives the seed a token if and only if the insert fails, and then one without any further start does |
| SeedTokens.ServingIsSafeExactlyThen | src/bin/core.rs:205-208 | at every moment of a run at which the core serves no continuation gives the seed a token, if and only if no start of the run fails to insert the seed while its identifier is free |
| SeedTokens.SeedNeverHasToken | README.md:52-53 | under that condition the seed has no token |
| SeedTokens.UnseededCoreMayIssueSeedToken | src/bin/core.rs:205-208 | the run of a failed insert and one colliding account request ends with the seed's identifier as its one account and its one token |
| Guarantees.GatewayNeverDebitsSeed | src/bin/client_gateway.rs:208-230 | a row behind a gateway request debits the account whose token was presented and never the seed; the seed is debited by the two tools only |
| Guarantees.OneRowPerRequest | src/bin/seed_tx.rs:33-43 | one gateway request or one run of the seed tool is behind at most one row, and a client without an answer to a call makes no further call |
| Guarantees.SeedPaymentsAreCapped | src/bin/seed_tx.rs:18-31 | every row sent by the seed is of 1 to 100 coin |
| Guarantees.DrainingIsSlow | src/bin/stipend.rs:20-51 | after n rows from the seed the others hold at most 100 n coin, and an empty seed means at least 1000 rows |
| Guarantees.RowsAreReadForever | src/ledger.rs:258-285 | a row read once is read unchanged by exactly its two parties in every later state |
| Guarantees.EveryRowIsReadTwice | src/ledger.rs:227-256 | in every reachable state the history lengths add up to twice the ledger |
| Guarantees.IssuedTokenStaysValid | src/auth.rs:128-179 | an issued token is valid through its expiry instant and expired after it, whatever happens after it was issued |
| Guarantees.TokenAnswerIgnoresOrder | src/auth.rs:153-179 | in every reachable state the answer does not depend on the order of the token table |
| Delivery.AtMostOnce | src/client_util.rs:63-106 | with message ids that do not repeat, a receipt means exactly one row stating the request and a receipt of that row, its funds the sender's balance as the ledger replayed up to the row gives it; a refusal means no row, no answer means at most one |
| Delivery.NoForeignAnswers | src/client_util.rs:101-106 | with message ids that do not repeat, a waiting client accepts a datagram exactly when it answers its own pending call |
| Delivery.OwnAnswerIsAccepted | src/client_util.rs:96-106 | in any state with distinct identifiers the datagram a client accepts is exactly the one that answers its last call |
| Delivery.AcceptedAnswerIsOwn | src/client_util.rs:101-106 | among any misdelivered answers the identifier lets through only the one to the client's last call |
| Delivery.StepKeepsTruth | src/message.rs:121-127 | answers in flight and answers accepted stay true of the ledger across every event |
| Gateway.RoundAnswers | src/client_util.rs:29-107 | a call sent, handled and delivered with nobody in between records the core's answer and leaves its effect |
| Gateway.TokenHolderIsServed | src/bin/client_gateway.rs:96-118 | in every reachable state the printed token of an account has the question of its request, written out, asked as that account and answered with the effect and answer said on the rows, through the expiry instant; after it the core is not asked |
| Gateway.GatewayAsksForItsUser | src/bin/client_gateway.rs:120-265 | in every reachable state a gateway request has sent nothing or exactly one message: the account, the account's rows in the range given, the row given, or a transfer from the account of the amount to the receiver given |
| Gateway.NewAccountGetsToken | src/bin/client_gateway.rs:53-94 | a completed account request adds one empty account to the core and its one token to the gateway |
| Gateway.CollisionIssuesNothing | src/account.rs:128-138 | when the drawn id is taken, by the seed or anyone, neither an account nor a token comes of it |
| Clients.GateOpensExactly | src/bin/client_gateway.rs:96-118 | in every reachable state the token check lets a request through if and only if the account has a row that the token matches and that has not expired; otherwise the request is over |
| Clients.TokenHolderPays | src/bin/client_gateway.rs:208-230 | in every reachable state a transfer asked for with the printed token in time moves the amount from the token's account to the receiver named, changes nobody else and appends that row, if and only if the amount is positive and there, the receiver is another existing account and the id is new; otherwise the tables stay |
| Clients.SeedToolPays | src/bin/seed_tx.rs:12-43 | in every reachable seeded state the seed tool does nothing above 100; otherwise its one call is the payment from the seed, it is answered, and the amount moves, with one row, if and only if it is positive and the seed has it, the receiver is another existing account and the id is new |
| Clients.SeedTxMain | src/bin/seed_tx.rs:12-43 | the tool's main: above 100 no request, otherwise the one payment from the seed with its answer |
| Clients.DeliveryEndsCall | src/client_util.rs:77-107 | a delivered datagram ends the call: with the call's identifier it is the answer; with any other the call has none, and the client stays as it then is through every later event |
| Clients.FinishedStaysFinished | src/client_util.rs:29-107 | a client that is done is not changed by any later event |
| Clients.SilenceTellsNothing | src/client_util.rs:48-81 | from every reachable state, no core listening, a crash before handling and a lost request leave every client in the very same state as a crash after the commit or a lost answer; the former leave the tables alone and no trace of the call, the latter the request carried out and no answer to it |
| Clients.RestartOnlyForgets | src/bin/core.rs:192-237 | in every reachable seeded state a stop and a start, whatever the seeding insert meets, lose the requests in the socket and change nothing else |
| Clients.StoppedCoreForgets | src/bin/core.rs:102-141 | a request in the socket of a core that stops has no row, no answer and no place in the socket in any later state |
| History.RepliesComeFromHandlers | src/bin/core.rs:116-141 | in every state of every run each answer in flight is the core's to that very call, over the tables at one handling event, which left them as they were right after it |
| History.AcceptedAnswerIsGenuine | src/client_util.rs:57-106 | with message ids that do not repeat, the same of every answer a client accepted |
| History.AcceptedAccountExists | src/account.rs:125-146 | an account whose creation was accepted is in the table in every later state |
| History.AcceptedRowStays | src/ledger.rs:258-285 | an accepted row is read unchanged by exactly its two parties in every later state |
| History.AcceptedHistoryIsOfPrefix | src/ledger.rs:227-256 | an accepted history is exactly the account's rows in the range, as often as stored, of some prefix of every later ledger |
| History.AcceptedListIsPast | src/account.rs:168-183 | an accepted account list is the whole table at some moment after the call was sent |
| History.SnapshotIsPast | src/bin/stipend.rs:25-38 | without any assumption on ids, a stipend run's list is the eligible part of a table the core held |
| StipendRun.NonSeedIsComplete | src/bin/stipend.rs:42-51 | every account of the snapshot but the seed is among those that can be paid |
| StipendRun.NonSeedKeepsOrder | src/bin/stipend.rs:42-51 | the accounts that can be paid come in snapshot order |
| StipendRun.StipendIsBounded | src/bin/stipend.rs:25-65 | under any interleaving the list a run works off is the eligible part of a table the core held at some moment; the run pays each account of it at most once, never the seed, and in total at most the amount for each one other than the seed |
| StipendRun.StipendMain | src/bin/stipend.rs:8-65 | the payment loop over the filtered snapshot gives the payments in order, and nothing above the limit of 100 |
| StipendRun.StipendAlone | src/bin/stipend.rs:36-64 | alone, exactly the first min(n, S / amount) of the n eligible accounts other than the seed gain the amount, the seed pays for them and nobody else changes |
| StipendRun.NonPositiveStipend | src/ledger.rs:138-144 | an amount of zero or less changes nothing |
| StipendRun.LockstepIsStipendMain | src/bin/stipend.rs:25-65 | the interleaved client, all calls answered and nobody in between, leaves the tables as the payment loop does |
| StipendRun.StipendAloneInTheSystem | src/bin/stipend.rs:25-65 | the exact outcome for a run alone in any reachable seeded state |

## Left out

- Tables.FirstFailure: when a receiver's balance would leave 64 bits the transfer is refused with an overflow error, where SQLite would store a REAL; proved unreachable in every state whose total is the seed's coin.
- Hex.Parse: texts are ASCII; slicing a longer encoding at a byte that is not a character boundary is not modelled.
- Tables.VisitOrder: the order of `get_transactions` is whatever order SQLite visits, given as an argument, since the query fixes none.
- Machine.StepStartCore: creating the tables and the views is taken as done; apart from the seeding insert (`seedFails`), I/O failures of the database and busy locks are not modelled.
- Machine.StepSend: a call is labelled by client and number, not by socket path, so that datagrams may reach any client; a panic of a tool while sending is the same as the client being killed.
- Machine.StepIssueToken: a failing bcrypt hash or a database that cannot be opened is the same as the request being killed before its token is stored.
- Auth.Crypto: bcrypt's own workings and the quality of random bytes.
- Sockets, buffer sizes, signals, file paths, HTTP routing and status codes, bearer header splitting and date parameters: plumbing around the modelled steps.
- JSON and UUID text: packets and identifiers are values; a packet of another version is dropped as in the source.
- Conversions of errors into text for responses: the typed error is kept instead.
- Positive fees and a fee account: the source stops at an assertion; the stop is modelled and proved unreachable from dispatched messages.
- SQL text, indexes, views, journal mode and column affinity.
