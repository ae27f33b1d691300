# The currency exchange, modelled and verified

The server of this repository is a small exchange: users place lots to sell or buy dollars for
roubles, and a new lot is matched at once against the lots of the opposite side. This project models
the matching loop, the two settlement routines, the transactional store they run against, the token
and session registry, the session's queue of responses and the client's queue of requests, and proves
what they keep.

* `Tables.dfy` holds the three tables, the constraints the schema declares, the effect of every SQL
  statement, and the total of all balances; `Schema.dfy` checks the statements against the constraints
  alone. `DatabaseManager.dfy` is the connection: a committed state, a transaction opened by the first
  statement, lost when one of its statements fails and dropped by the commit, and a log of everything
  ever committed, which is what a crash can leave behind.
* `Settlement.dfy` describes the two settlements as functions on the tables; `SettlementSteps.dfy` runs
  them statement by statement and says how far the working tables are off between two statements.
* `Matching.dfy` is one placement: the query for crossing lots, the three branches, the walk over a
  batch. `Batching.dfy` joins the batches of all rounds. Selling and buying are one definition with the
  side as a parameter, because the two branches of the server differ only in the side, the price
  comparison and the order of the arguments.
* `Stopping.dfy` tells where the loop stops from the request and the rows alone, and `Planning.dfy` which
  batches will be read from the request and the tables before the placement. With them `Ledger.dfy`
  compares the reports with the balances, `Fill.dfy` the accumulated amount with the request and with the
  dollars that really moved, and `Leftovers.dfy` shows which lots stay in the book although they cross.
* `Exchange.dfy` is the state machine of whole runs: registrations, logins, placements, cancels,
  closing connections, crashes between requests and inside a placement. `Runs.dfy` and
  `OrderlyMarket.dfy` draw conclusions about every reachable state.
* `ReferenceBook.dfy` is an independent, lot-level exchange with one pass over one sorted list per
  placement. The server refines it as long as users place a lot only while holding none in the book;
  `Undisciplined.dfy` shows where it does not.
* `Registry.dfy` says how long tokens and session entries live, `Protocol.dfy` what every request answers
  and does, without events and as a client may rely on it.
* `Quotation.dfy` and `Server.dfy` are the request handler with its loops, proved to take exactly the
  steps of the state machine; `CommitLog.dfy` ties everything they commit to the crashes of that machine.
  `WritePump.dfy`, `SessionPump.dfy`, `ClientPump.dfy` are the queues, and `Network.dfy` follows a report
  from the matching loop to the wire. `WholeSystem.dfy` runs the server with all its connections.

Four properties of the code are worth knowing, because the theorems are shaped by them.

* The branches compare a counter-lot with the whole request, not with what is left of it. A placement
  can therefore move more dollars than requested (`Fill.OverfillExample`); `Fill.WithinRequest` says from
  the request and the tables before it when it does not, and `Fill.WithinListing`, with one lot per user
  in the book, from one sorted list of the crossing lots.
* Updates of `requests` select by owner. `ReferenceBook.RunRefines` therefore assumes that nobody places
  a lot while holding another one in the book; `Undisciplined.SecondLotUnmatched` and
  `Undisciplined.OwnLotUnmatched` show how a second lot breaks it, `Undisciplined.UnmatchedExample` is an
  instance.
* A request met exactly by a sum of smaller lots leaves the loop and stays in the book, empty. In every
  run the later of two crossing lots was met exactly or cut off by a crash (`Exchange.RunKeepsInv`), and
  `Leftovers.CrossedIff` tells before a placement whether it will be left so. In orderly runs it is still
  empty (`OrderlyMarket.OrderlyBook`); otherwise a later placement of its owner takes from it too
  (`Undisciplined.OwnLotAfter`).
* A two-sided close of a buying lot reports the amount left in that lot, while the whole request changes
  hands. `Ledger.PlanReplay` gives the exact condition for any book, `Ledger.ListingReplay` on one sorted
  list when nobody has two lots there, and `Ledger.ReplayCanFail` is an instance.

The project has no dependencies: `dafny verify dfyconfig.toml` checks all of it.

## Model

| member | source | states |
|---|---|---|
| DatabaseManager.DataBaseManager.MakeTransaction | src/bourse/database_manager.cpp:9-19 | opens a transaction if there is none, applies the statement or reports its constraint violation, and leaves the committed tables alone; once a statement has failed every further one of the transaction is refused |
| DatabaseManager.DataBaseManager.CommitTransactions | src/bourse/database_manager.cpp:21-25 | needs an open transaction in which nothing failed; its working tables become the committed ones, are appended to the log of committed states, and the transaction is gone |
| Tables.ActiveUnrecorded | src/bourse/database_manager.cpp:97-107 | a lot in the book is not in the deal history |
| Schema.AcceptedIffSchematic | src/bourse/database_manager.cpp:34-108 | a statement is accepted exactly when its effect keeps keys, unique indexes and references |
| Settlement.TransferMoves | src/network/server.cpp:404-414 | the four updates of `data` move the amount between the two parties and keep both totals, other accounts unchanged |
| Settlement.CloseOneKeepsGood | src/network/server.cpp:395-416 | closing one lot keeps keys, unique indexes, references, and that recorded lots are closed and recorded once for the right party |
| Settlement.CloseBothKeepsGood | src/network/server.cpp:337-361 | closing two lots keeps the same |
| SettlementSteps.CloseRequest | src/network/server.cpp:366-419 | succeeds exactly when both lots and parties exist and the completed lot is not recorded; then the statements of its script were sent in order and committed once, and the tables are those of the one-sided settlement; else nothing is committed, the error is told, and the transaction is lost exactly when a statement failed; seller is the owner of the `sell` lot |
| SettlementSteps.CloseTwoWayRequests | src/network/server.cpp:315-364 | the same for the two-sided settlement between any two parties and lots; reports the buying lot and the amount in it |
| SettlementSteps.CloseOneStages | src/network/server.cpp:395-414 | after any number of the statements that `CloseRequest` sends the working totals are off by exactly the half-done transfer, and the last one reaches the settled tables |
| SettlementSteps.CloseBothStages | src/network/server.cpp:337-359 | the same for the statements of `CloseTwoWayRequests` |
| Matching.SettleEffect | src/network/server.cpp:125-141 | what a settled row does to lots, history and balances, whichever branch runs, and that totals are kept |
| Matching.StepKeeps | src/network/server.cpp:123-151 | after a row the other rows of the batch still tell owner, side, price and amount, though not `active`; the incoming lot holds request minus accumulated, or is recorded and closed |
| Matching.WalkKeeps | src/network/server.cpp:180-209 | along a whole batch, for any amounts: constraints, totals and the incoming lot as after one row, and lots only leave the book |
| Matching.RestStaysTrue | src/network/server.cpp:123-141 | before every trade of a batch the request is unmet, and all rows still to come tell the truth about owner, side, price and amount and are not recorded |
| Matching.WalkTrades | src/network/server.cpp:123-151 | trades are the rows in order, all but the last smaller than the request; the history grows by one deal per trade and one more exactly for a two-sided end |
| Matching.SweepExact | src/network/server.cpp:402 | a batch that does not meet the request closes exactly the lots of its owners and takes exactly the accumulated amount from the incoming owner's lots |
| Batching.RoundsInOrder | src/network/server.cpp:111-152 | over all rounds, settled lots come in non-increasing price order, none twice, each with its content at the start; what is left in the book is no better priced |
| Batching.BatchedIsOnePass | src/network/server.cpp:168-210 | with one lot per user in the book, all rounds together settle what one pass over a sorted list of all crossing lots would, for any batch limit |
| Batching.RoundShrinksBook | src/network/server.cpp:111-152 | a round that does not end the loop strictly shrinks the set of crossing lots, for zero and negative amounts too |
| Batching.TradesBounded | src/network/server.cpp:168-210 | a placement makes at most as many trades as there were crossing lots |
| Stopping.StopTrades | src/network/server.cpp:122-141 | where the loop stops is told by request and rows alone: rows smaller than the request until they meet it or a row comes that is not smaller; the latter is settled for the whole request after their sum was accumulated |
| Planning.RoundsIffSchedule | src/network/server.cpp:111-152 | for any amounts and any book: the batches a placement may read are exactly the schedules told by the tables before it, each batch being the best of the crossing lots whose owners were not settled with, read only when the rows before it were taken whole without meeting the request |
| Planning.PlacementIsPlan | src/network/server.cpp:110-121 | whole placements are exactly the plans: schedules that go on until the request is met or no lot is left |
| Planning.PlanIsUnique | src/network/server.cpp:116-120 | if no two crossing lots have the same price there is only one plan, so a placement is determined by request and tables |
| Ledger.WalkReplay | src/network/server.cpp:145-150 | replaying the reports of a batch by name gives the balances after it, if and only if the batch did not end in a misreported close |
| Ledger.PlacementReplay | src/network/server.cpp:196-208 | the same over all rounds: always for selling; for buying unless a two-sided close follows an accumulation |
| Ledger.BuyingReplay | src/network/server.cpp:188-199 | with positive amounts: exactly when a two-sided close is absent or is the first trade |
| Ledger.RowsReplay | src/network/server.cpp:188-199 | for any amounts, told by the rows: the reports account for the balances unless a buy meets a row equal to the request after smaller rows that add up to neither nothing nor the request |
| Ledger.PlanReplay | src/network/server.cpp:168-210 | the same told before the placement by a plan, for any book; by the only plan if no two crossing lots have the same price |
| Ledger.ListingReplay | src/network/server.cpp:168-210 | with one lot per user in the book, the same told by a sorted listing of all crossing lots, whatever the batch limit; by the only listing if no two of them have the same price |
| Ledger.ReplayCanFail | src/network/server.cpp:363 | a placement, valid in every respect, whose reports do not account for the balances |
| Fill.FillAccounting | src/network/server.cpp:110-140 | positive amounts, one lot per user, crossing quantity within the request: every crossing lot is closed, and either exactly the difference remains on the incoming lot or a single equal lot closed both |
| Fill.TradedExact | src/network/server.cpp:125-141 | the accumulated amount equals the dollars traded, short by what was accumulated before a settlement of the whole request |
| Fill.AccountMoves | src/network/server.cpp:404-414 | the incoming user's dollars move by exactly the dollars traded, and the roubles by what they cost |
| Fill.DollarsMoved | src/network/server.cpp:168-210 | the same told by the batches that were read, without any assumption on the book |
| Fill.WithinRequest | src/network/server.cpp:188-199 | for any amounts and any book, a plan tells beforehand how many dollars a placement moves: the rows taken whole, and the whole request if one more row settles it; so it moves at most the request if and only if the rows taken whole meet it, or add up to nothing before such a row, or are all there is and do not run past it; every plan tells so if no two crossing lots have the same price |
| Fill.WithinListing | src/network/server.cpp:188-199 | with one lot per user in the book, the same told by a sorted listing of all crossing lots, whatever the batch limit |
| Fill.PositiveWithinRequest | src/network/server.cpp:188-199 | with positive amounts, for any book: at most the request moves if and only if the plan has no rows, its first row is not smaller than the request, smaller rows at its head meet it exactly, or all its rows are smaller and fit into it |
| Fill.PositiveWithinListing | src/network/server.cpp:188-199 | with one lot per user in the book, the same four cases on a sorted listing of all crossing lots |
| Fill.OverfillExample | src/network/server.cpp:125-141 | a valid placement of 10 dollars that moves 15 |
| Exchange.NewAccountKeepsGood | src/network/server.cpp:250-255 | registering a free name keeps all constraints and the totals |
| Exchange.StartIsSound | src/network/server.cpp:103-108 | inserting a lot meets its foreign key, gets an unused id and keeps everything |
| Exchange.CancelSafe | src/network/server.cpp:232-238 | deleting a lot of the book violates no reference; balances, history and other lots stay |
| Exchange.CancelKeepsInv | src/network/server.cpp:229-245 | a lot is removed exactly when it belongs to the requester and is in the book; no other lot, account, deal, token or session entry changes |
| Exchange.LoginKeepsInv | src/network/server.cpp:263-276 | a login, repeated or not, keeps tokens bound to existing accounts and every registered account reachable by a live token |
| Exchange.LoginBinds | src/network/server.cpp:263-276 | a login with the right digest binds the first unused drawn token to the named account and the connection, an existing session entry stays, and nothing else changes; a wrong digest or a name nobody has changes nothing |
| Exchange.RegisterOpens | src/network/server.cpp:247-276 | a free name gets an empty account and is logged in by the fall-through to authorization, and nothing else changes; an occupied name changes nothing |
| Exchange.CloseKeepsInv | src/network/server.cpp:82-88 | closing a connection keeps the registry sound |
| Exchange.CloseLogsOut | src/network/server.cpp:82-88 | exactly the connection's token and its account's session entry go, and the tables and what connections hold stay; closing twice is closing once |
| Exchange.PlaceKeepsInv | src/network/server.cpp:99-155 | a placement, whole or cut off by a crash after any settlement, keeps constraints and totals, and a later lot crosses an earlier one only if its request was met exactly or it was cut off |
| Exchange.StepKeepsInv | src/network/server.cpp:90-313 | every request, close and crash keeps all invariants and both totals |
| Exchange.RunKeepsInv | src/network/server.cpp:90-313 | every state of every run, for any batch limit, has all invariants and the totals of the start |
| Runs.ReachableSound | src/bourse/database_manager.cpp:97-107 | from empty tables: totals are zero, and every lot in the history is closed and recorded exactly once |
| Runs.AcceptedInRuns | src/bourse/database_manager.cpp:34-108 | every state of every run has the declared constraints, and the store accepts a statement there exactly when its effect keeps them |
| Runs.RunIsLater | src/network/server.cpp:225-246 | between any two states of a run the history only grows, no lot id is reused, and no lot returns to the book or changes owner, side or price |
| Runs.TokensStay | src/network/server.cpp:263-276 | over any stretch of a run in which a token is live it stands for the same account |
| Runs.TokenMeansLogin | src/network/server.cpp:260-280 | in every run from empty tables or after a crash, a live token was drawn by a login with the name and the digest of the account it stands for |
| Runs.CrashLogsOut | src/network/server.h:103-106 | after a crash no sequence of requests, closes and further crashes without a login changes anything, whatever tokens they carry; the committed tables are kept |
| Runs.ClosedStaysOut | src/network/server.cpp:82-88 | after a connection was closed, and whatever happens short of a login, requests with its token change nothing |
| Registry.StepFrame | src/network/server.cpp:90-313 | only logins, closing connections and crashes touch the two session maps; reading requests touch nothing |
| Registry.TokensPersist | src/network/server.cpp:82-88 | over any run a live token stays live all the time, for the same account, if and only if no crash happens and no connection holding it closes |
| Registry.SessionsPersist | src/network/server.cpp:275 | over any run an account keeps the connection that gets its reports until a connection of the account closes or a crash |
| Runs.EveryTradeFair | src/network/server.cpp:381-385 | in every run, each trade, those of a placement that a crash cut off included, has two parties, the owner of the `sell` lot sells, and the price is the resting lot's and within both limits; the history gets exactly these deals and grows by nothing else |
| OrderlyMarket.StepOrderly | src/network/server.cpp:398-402 | in an orderly run closed lots are recorded, nobody has two lots in the book, and lots met exactly stay empty |
| OrderlyMarket.OrderlyBook | src/network/server.cpp:111-121 | after an orderly run a lot is recorded exactly when it is closed, and of two crossing lots the later is empty or was cut off by a crash |
| Leftovers.CrossedIff | src/network/server.cpp:110-121 | for any amounts and any book, told by a plan: after a placement the incoming lot crosses another lot of the book if and only if the rows taken whole meet the request and an owner not among theirs has a crossing lot |
| Leftovers.PlaceCrossedIff | src/network/server.cpp:99-155 | the same for a placement step of a run |
| Leftovers.ListingCrossedIff | src/network/server.cpp:168-213 | with one lot per user in the book: if and only if the rows taken whole from a sorted listing of all crossing lots meet the request and are not all |
| Leftovers.EveryCrossingTold | src/network/server.cpp:90-313 | in every state of every run, the later of two crossing lots placed in the run was cut off by a crash, or the plan of its placement told that it would be left crossed |
| Leftovers.RemainderCrossed | src/network/server.cpp:122-154 | then every such crossing lot stays as it was and crosses the empty remainder |
| Leftovers.CrossedBookExample | src/network/server.cpp:168-210 | one request that leaves two crossing lots in the book |
| ReferenceBook.UpdatesExactIff | src/network/server.cpp:395-402 | the updates by owner equal the lot-level settlement on the book if and only if they hit no third lot |
| ReferenceBook.LotsRefine | src/network/server.cpp:395-402 | with one lot per user in the book there is no third lot to hit |
| ReferenceBook.PlaceRefines | src/network/server.cpp:156-213 | a disciplined placement is one reference placement over a sorted list of all crossing lots |
| ReferenceBook.StepRefines | src/network/server.cpp:90-313 | every disciplined step is a reference step on the same request |
| ReferenceBook.RunRefines | src/network/server.cpp:90-313 | after any disciplined run, crashes included, book, amounts and balances are those of a reference run over the same requests |
| Undisciplined.TouchedIsUnmatched | src/network/server.cpp:395-402 | a placement that closes or changes a lot it does not cross is no step of the reference on the same request |
| Undisciplined.SecondLotUnmatched | src/network/server.cpp:402 | so whenever the owner of a row settled in full has another lot that does not cross |
| Undisciplined.OwnLotUnmatched | src/network/server.cpp:395 | and whenever the incoming user has another lot and the placement moves anything |
| Undisciplined.UnmatchedExample | src/network/server.cpp:337-343 | a valid placement that no reference placement of the same request matches |
| Quotation.SizesAgree | src/network/server.cpp:285-298 | both quotation queries return as many rows as there are deals, up to the limit |
| Quotation.Quotes | src/network/server.cpp:297-302 | the walk over the prices never reads past the dates; the i-th date is the i-th chosen one, and the prices are those of the lots of the chosen deals, each lot once |
| Server.Server.constructor | src/network/server.cpp:10-21 | a started process has the committed tables and nobody logged in: the state after a crash |
| Server.QueryCrossing | src/network/server.cpp:116-120 | returns a valid snapshot: crossing lots of others by descending price, up to the limit, none better left out |
| Server.SettlementNeverFails | src/network/server.cpp:123-141 | no statement of a settlement fails, even for a row whose owner has been closed since the batch was read |
| Server.SettleOne | src/network/server.cpp:124-141 | the three branches commit the specified settlement and report it |
| Server.Server.SettleBatch | src/network/server.cpp:123-151 | the inner loop performs the walk, answers one report per trade and queues it to the live session of the counterparty; it commits once per trade |
| Server.Server.MatchRound | src/network/server.cpp:116-152 | one round extends the placement by the batch read, and shrinks the crossing lots unless the request is met |
| Server.Server.PlaceLot | src/network/server.cpp:99-155 | terminates; the whole placement is a valid sequence of rounds ending on a met request or an empty query; one success answer, then one report per trade; commits the lot and then each settlement |
| Protocol.FanOutExact | src/network/server.cpp:142-148 | a live connection is queued exactly the reports of trades with the users registered for it, once each, in order |
| Protocol.TradesOfConcat | src/network/server.cpp:142-148 | the trades reported to a connection are those of any first part followed by those of the rest, so in order |
| Protocol.ReportsAre | src/network/server.cpp:149-150 | one report per trade, in order, with what the settlement returned |
| Protocol.AnswersAreTold | src/network/server.cpp:90-313 | every event with its answers does what is told, without events, of the request: the plan followed and one report per trade, the balance, the quotation, the lot taken or the reason why not, the token bound and answered, and nothing else changed |
| Protocol.AnsweredTokenIsBound | src/network/server.cpp:270-277 | an answered token was not in use, is live, is held by the connection that asked, and stands for the account of the name and digest it asked with |
| Protocol.TurnedAwayIff | src/network/server.cpp:101 | a request is answered `not authorized` if and only if its token is not live |
| Protocol.RefusalChangesNothing | src/network/server.cpp:90-313 | a refused request changes nothing |
| CommitLog.CommitIsPrefixWalk | src/network/server.cpp:361-416 | the k-th commit of a placement is the walk cut off after k settlements |
| CommitLog.PlaceCommits | src/network/server.cpp:107-152 | every state a placement commits is sound, has the totals of the start, and is the one a crash that cuts off this very placement leaves |
| Server.Server.CancelRequest | src/network/server.cpp:225-246 | answers and effects of a cancel in all four cases; a refusal changes nothing |
| Server.Server.Login | src/network/server.cpp:260-280 | the first unused drawn token is bound and answered; an existing session entry stays; a failed login changes nothing |
| Server.Server.RegistrationRequest | src/network/server.cpp:247-259 | an occupied name changes nothing; a new account is committed and logged in at once, and the token bound is the one answered |
| Server.Server.UpdateRequest | src/network/server.cpp:281-304 | the quotation answers the prices of the lots of the chosen deals, each once, with the chosen dates in order, and changes nothing |
| Server.Server.BalanceRequest | src/network/server.cpp:214-224 | answers the roubles and dollars of the token's account and changes nothing |
| Server.Server.ExecRequest | src/network/server.cpp:90-313 | takes exactly one step of the state machine, does and answers what is told of the request, leaves the state alone when reading, answers a token only if it is bound to the account and the connection that asked, leaves an open transaction without changes, commits only sound states that the step or the crash cutting off this very request explains, and never returns an empty queue |
| Server.Server.CloseSession | src/network/server.cpp:82-88 | removes the token and the account's session entry |
| WritePump.PushKeeps | src/network/server.h:62-68 | queueing keeps delivered plus pending equal to enqueued, at most one write in flight, and does not touch the buffer of a running write |
| WritePump.WrittenKeeps | src/network/server.cpp:64-79 | a completed write delivers the front message and starts the next |
| WritePump.Drains | src/network/server.cpp:64-79 | as many completed writes as pending messages deliver everything enqueued, in order |
| SessionPump.AlwaysSound | src/network/server.cpp:45-80 | for every interleaving of reads, writes, failures and foreign reports: delivered followed by pending is what the events queued, in order, at most one write is in flight and can complete, and an open session waits for a write or a read |
| SessionPump.HalfDuplex | src/network/server.cpp:45-80 | without foreign reports exactly one operation is outstanding |
| SessionPump.OpenUntilFailure | src/network/server.cpp:45-80 | a session is open until a read or a write fails, and then never again |
| SessionPump.FromTheStart | src/network/server.cpp:33-37 | a session that starts has one read armed and nothing queued; whatever happens it has delivered or holds what was queued and waits for a read or a write until a failure, for exactly one of them without foreign reports |
| SessionPump.ReportArmsSecondRead | src/network/server.h:62-68 | a report to an idle session leaves two reads armed |
| SessionPump.Session.AddResponsesQueue | src/network/server.h:62-68 | queues a report from another handler |
| SessionPump.Session.OnRead | src/network/server.cpp:45-62 | a request is handled and its responses queued after the reports to the connection itself, which are not handed on again |
| SessionPump.Session.OnWrite | src/network/server.cpp:64-79 | pops the delivered response and continues with the next or re-arms the read |
| Network.DispatchExact | src/network/server.cpp:142-148 | handing over an outbox queues to every connection exactly its part, in order, and disturbs nothing else |
| Network.HandledExact | src/network/server.cpp:45-62 | a whole request: the requester is queued its part of the reports and then its answers, every other connection its part, all exactly once |
| Network.ReportsArrive | src/network/server.cpp:142-148 | a live connection that keeps writing delivers, behind what was queued, exactly the reports of the trades with its users, once each and in order; the requester its answers behind them |
| WholeSystem.EveryoneGetsTheirs | src/network/server.cpp:45-80 | over any run of requests, writes, failures and new connections of all clients, what a client received and what is pending for it is what was queued before, then the reports of all trades with its users and the answers to its requests, each once and in order; while it is open, further writes deliver all of it |
| WholeSystem.OpenAlong | src/network/server.cpp:82-88 | in every run of the whole server a connection is open exactly until one of its reads or writes fails |
| WholeSystem.ListensUnlessFailed | src/network/server.cpp:23-37 | every connection that was open or was made in the run, and has not failed, is open and waits for a read or a write |
| WholeSystem.AnsweredTokenServes | src/network/server.cpp:260-280 | a token that was answered is served, for the account of the name and digest it was asked with, until a connection that holds it fails |
| WholeSystem.BalancesDiffer | src/network/server.cpp:404-414 | the balances answered before and after a placement differ by exactly the dollars and roubles of the trades its plan tells |
| ClientPump.RequestsInOrder | src/network/client.cpp:47-90 | for every interleaving the server receives the posted requests in order, a write can complete while one is pending until one fails, one read stays armed, and every message is emitted in order |
| ClientPump.StopsAtFailure | src/network/client.cpp:58-90 | the client stops reading exactly when a read fails, and writing exactly when a write fails |
| ClientPump.FromTheStart | src/network/client.cpp:31-36 | a client that starts has one read armed; a message can arrive exactly until a read fails, and while requests are pending one is being sent exactly until a write fails |
| ClientPump.Client.Write | src/network/client.cpp:47-56 | the posted part of `write` |
| ClientPump.Client.OnWrite | src/network/client.cpp:58-75 | completion of a write, with or without error |
| ClientPump.Client.OnRead | src/network/client.cpp:77-90 | completion of a read: the message is emitted and the read re-armed, or the loop ends |

## Left out

- Integers are unbounded: the overflow of `rub_price * usd_buying` in 32 bits is not modelled.
- Dates of deals: the quotation is any choice of the right number of deals, so only its sizes and the lots it quotes are determined, not which deals are the latest.
- Gaps in serial ids after an aborted insert, and NULL in the nullable columns.
- Server.Server.CancelRequest: for an id that does not exist the server reads a field of an empty result; what the client library does then is not part of this model, and it is taken as a null that matches no owner.
- The password hash and the random numbers: a digest and a sequence of drawn tokens are inputs, and some drawn token is assumed to be unused.
- JSON, message framing, buffer sizes, TLS, sockets, accepting connections and the graphical client.
- Server.Server.ExecRequest: collects the calls of other sessions' queues in an outbox instead of making them on session objects; `Session.OnRead` keeps its own part and `Network.dfy` hands the rest over on values, so aliasing between sessions is not modelled.
- Registration of an account that was deleted or edited outside the server: only the server writes to the tables.
