# Wallet money movement

This project models how the wallet service moves money and proves what it keeps. The service takes
funding, withdrawal and transfer requests over HTTP, screens their `txId` through a Redis entry and the
`WalletRequest` table, and queues a job. Three queue handlers execute the jobs on the `Wallet`,
`WalletRequest` and `Transaction` tables with version-guarded updates. A consumer retries the handlers
that throw. Money is an integer count of 0.0001 units, the scale of the columns.

There are two layers and a serial specification between them.

- `Books.dfy` and `History.dfy` say what one job does alone (`Serve`) and what a sequence of committed
  events does to the wallets and the ledger.
- `Machine.dfy` is the running system as a state machine: any number of workers and API calls, where every
  await is one step. A worker inside `$transaction` has private writes; a pending write on a wallet row is
  also its row lock. A read inside the transaction may see any snapshot committed since the transaction
  began, which covers both READ COMMITTED and REPEATABLE READ. Cache entries expire, messages are copied and
  redelivered, the database aborts transactions, awaits fail (with or without effect) and workers crash.
  `AllRuns.dfy` has the invariant, `Guarantees.dfy` what every run guarantees, `NoFault.dfy` what runs
  without faults guarantee on top: there cache calls, the pre-log, the catch blocks and publishes succeed and
  no worker crashes, but validation failures, version conflicts, duplicate references, database aborts,
  expiry and duplicate deliveries still happen.
- `Ledger.dfy` says what the ledger tells by itself, and `Messages.dfy` what becomes of messages in the running system.
- `Handlers.dfy` specifies one delivery or API call that runs alone; `Store.dfy`, `Processors.dfy` and
  `FrontEnd.dfy` are the service classes, statement by statement, with rollback, proved against it.
  `Solo.dfy` proves that an uninterrupted worker or call of the state machine does the same, so the two
  layers describe one program.
- `Scenarios.dfy` builds runs of the state machine. On it rest `Faults.dfy`, exactly when faults make tickets and
  cache entries lie, and `Locks.dfy`, exactly when row locks deadlock.
- `Retry.dfy` is the consumer for an arbitrary handler, `Fees.dfy` the funding fee, `WalletLists.dfy` the
  `user_wallets` cache. `Transparency.dfy` and `Cacheless.dfy` show that the idempotency cache is invisible in
  no-fault runs, to one delivery or call and over whole interleaved runs.

`start`, `history` and `thrown` in the state, and the counters in the retry protocol, are auxiliary: no step
reads them, except that a read inside a transaction uses the history to look up a committed snapshot.

## Findings

- A wallet created under the `txId` of a pending or failed ticket is inserted before the ticket insert
  fails; the call answers with an error though the wallet exists (exact condition in
  `WalletLists.ErrorAfterInsertIff`), and a cached wallet list never shows it (exact condition in
  `WalletLists.CreateKeepsListIff`, an instance in `WalletLists.StrandedWallet`).
- Ledger references share one namespace: a funding or withdrawal whose `txId` is `x-sender` or `x-recipient`
  blocks the transfer `x` for good (`History.ForeignReferenceBlocks`, `Guarantees.ClaimedForGood`; exact condition
  in `History.TransferServedIff`, an instance in `History.ForeignReferenceHappens`). A committed transfer `x` blocks those
  fundings and withdrawals in turn (`History.SingleRowServedIff`).
- A funding amount has no lower bound and can overdraw a wallet (`History.NegativeFundingOverdraws`, exact
  condition in `History.OverdrawnIff`).
- With faults, a ticket marked failed may belong to money that moved. This happens exactly when a catch block marks a
  `txId` that has had its effect (`Faults.HonestIff`, over runs `Faults.FailedMeansNoEffectIff`): after an
  error behind the commit (`Faults.FreshDeliveryMislabelsIff`, a run in `Faults.ErrorAfterCommitMislabels`), or at a
  commit that took effect all the same (`Faults.LostCommitMislabels`), and also when a message that was never
  acknowledged is delivered again and its idempotency check fails (`Faults.RepeatedDeliveryMislabelsIff`, a run in
  `Faults.RepeatedDeliveryMislabels`).
- With faults, a cached failure may have no ticket: exactly when the idempotency check or pre-log of a new `txId` fails
  and the catch block writes the entry (`Faults.EntriesHaveTicketsIff`, `Faults.BackedIff`, a run in
  `Faults.EntryWithoutTicket`). Retries are then skipped that would go through (`Faults.FailedPreLogShows`).
- The service's own README says (line 71) that wallets are locked by ascending id. The code always updates sender,
  then recipient (src/jobs/transfer.processor.ts:90-110), so any ring of transfers can block each other
  (`Locks.RingDeadlocks`). `Locks.CycleIff` says exactly when workers wait in a circle and `Locks.StuckIff` that
  circles are the only way to be stuck. With ascending ids none could form (`Locks.AscendingHasNoCycle`,
  `Locks.AscendingGoesOn`).
- The service's own README says (line 83) that caches are invalidated right after changes. A funding leaves its
  user's wallet list in place (src/jobs/funding.processor.ts:98-116; exact condition in
  `WalletLists.FundingKeepsListIff`, an instance in `WalletLists.StaleAfterFunding`). The model follows the code.

## Model

| member | source | states |
|---|---|---|
| Fees.NearestCentIsFee | src/jobs/funding.processor.ts:59-60 | being a whole cent no other whole cent beats in distance to half a percent is the same as being at most half a cent away |
| Fees.FundingFee | src/jobs/funding.processor.ts:59-60 | the rounded fee is a nearest cent, for negative amounts too |
| Fees.FeeOpenOnTies | src/jobs/funding.processor.ts:59 | a second fee is possible exactly when the amount sits halfway between two cents |
| Fees.FeeWithinAmount | src/jobs/funding.processor.ts:59-60 | for a non-negative amount the fee lies between zero and the amount |
| Fees.RoundingDrift | src/jobs/funding.processor.ts:59-60 | n fees differ from half a percent of the total by at most n half-cents |
| Fees.SplitDeposit | src/jobs/funding.processor.ts:59-60 | charging the parts of a deposit differs from charging the whole by at most n+1 half-cents |
| Books.SameWalletTransferConflicts | src/jobs/transfer.processor.ts:90-110 | a transfer from a wallet to itself passes its checks and is then rejected by its own version bump |
| Books.ServedIff | src/jobs/transfer.processor.ts:63-141 | a job run alone goes through exactly when its users have the wallets it names, live and in its currency, a payer holds at least the amount, a transfer joins two wallets and the references are unused; each refusal gives the reason of the first of these that fails |
| Books.ServedEffect | src/jobs/transfer.processor.ts:89-134 | a served job bumps the version and moves the balance of the wallets it names, no other row, and appends its ledger rows (whose columns the rows of Ledger pin down) |
| Books.InsertableIff | src/database/schema.prisma:50 | an insert is accepted exactly when the ledger it leaves still has no reference twice |
| Books.ReferencesApart | src/jobs/transfer.processor.ts:113-134 | no two transfers share a reference, and no sender reference is a recipient reference |
| History.VersionDeterminesRow | src/database/schema.prisma:31 | along any legal history versions never go down and equal versions mean equal rows; owner, currency and deletion mark never change |
| History.StaleVersionHasWitness | src/jobs/transfer.processor.ts:90-110 | a version that moved between two moments was moved by a committed job naming the wallet |
| History.OwnersStayDistinct | src/database/schema.prisma:37 | one wallet per user and currency is kept by every event |
| History.TransfersJoinTwoUsers | src/jobs/transfer.processor.ts:64-110 | a committed transfer joins two wallets of two users |
| History.MovedWalletsAreOwned | src/jobs/funding.processor.ts:53-56 | the wallets a committed job names belong to its users in its currency, at its commit and at every later moment |
| History.LedgerIsPosted | src/database/schema.prisma:50 | the ledger is the rows of the committed jobs in commit order, with distinct references |
| History.RowsAreOwned | src/jobs/transfer.processor.ts:113-134 | each ledger row names a wallet of its own user |
| History.UnusedIff | src/database/schema.prisma:50 | a reference is free exactly when no event so far wrote it |
| History.OneWriterPerReference | src/database/schema.prisma:50 | no reference is written by two jobs of a history, whatever their kinds |
| History.SingleRowServedIff | src/database/schema.prisma:50 | after any history a funding or withdrawal goes through exactly when its user has the wallet, a withdrawal is covered, no earlier funding or withdrawal has its txId, and that txId is no reference of an earlier transfer |
| History.ClaimsMeans | src/jobs/transfer.processor.ts:113-134 | the jobs that write a reference of transfer x are the transfers under x and the fundings and withdrawals under `x-sender` or `x-recipient` |
| History.TransferServedIff | src/jobs/transfer.processor.ts:63-141 | after any history a transfer goes through exactly when its users have the two wallets, the sender's covers it, they differ, and no earlier job claimed its references |
| History.ForeignReferenceBlocks | src/database/schema.prisma:50 | once a funding or withdrawal has claimed a reference of a transfer, every later state rejects that transfer and no history with the claim contains it |
| History.ForeignReferenceHappens | src/jobs/funding.processor.ts:84-95 | a funding under `x-sender` turns a transfer `x` that would go through into a duplicate reference |
| History.Reconciled | src/jobs/withdrawal.processor.ts:57-83 | balance equals starting balance plus signed ledger rows, version equals starting version plus number of rows |
| History.NeverOverdrawn | src/jobs/withdrawal.processor.ts:53-66 | no legal history overdraws a wallet if none starts negative and fundings are non-negative |
| History.OverdrawnIff | src/wallets/dto/fund-wallet.dto.ts:14-15 | a job drives a balance negative exactly when it is a funding whose negative net amount exceeds the balance |
| History.NegativeFundingOverdraws | src/wallets/dto/fund-wallet.dto.ts:14-15 | a funding with a large enough negative amount is accepted and overdraws its wallet |
| History.Conserved | src/jobs/transfer.processor.ts:67-110 | per currency, balances plus fees plus withdrawals equal starting balances plus gross fundings |
| Ledger.ColumnsAddUp | src/jobs/funding.processor.ts:84-95 | currency by currency, the WITHDRAWAL amounts of the ledger add up to what was withdrawn, its fee column to what was charged, and its deposits from outside plus their fees to what was funded |
| Ledger.AllPaired | src/jobs/transfer.processor.ts:113-134 | every row has one of the four forms the handlers write, and the TRANSFER row and the DEPOSIT row of a transfer stand side by side, each naming the other's wallet, with one amount and the references `x-sender` and `x-recipient` |
| Ledger.DebitHasItsCredit | src/jobs/transfer.processor.ts:113-134 | every debit of a transfer has exactly one credit in the ledger |
| Ledger.CreditHasItsDebit | src/jobs/transfer.processor.ts:113-134 | every credit of a transfer has exactly one debit in the ledger |
| AllRuns.GuardMeansUnchanged | src/jobs/withdrawal.processor.ts:48-66 | a guard that matches means the row is still the row that was read, balance included |
| AllRuns.SecondGuardMeansUnchanged | src/jobs/transfer.processor.ts:101-110 | the recipient guard matches only on another wallet that is still as read |
| AllRuns.CommitIsServe | src/jobs/transfer.processor.ts:63-141 | the private writes of a transaction that reaches its commit are what the job does alone on the current tables |
| AllRuns.Undisturbed | src/jobs/transfer.processor.ts:63-141 | whatever another party's step does, a worker's reads, locks and ticket stay as its own invariant says |
| AllRuns.AdvanceOk | src/jobs/transfer.processor.ts:32-198 | every await of every handler keeps the shared invariant and the worker's own, and disturbs others only on rows it has locked |
| AllRuns.RespondOk | src/wallets/wallets.service.ts:22-269 | every await of an API call keeps the shared invariant and spends a txId only when it has no ticket |
| AllRuns.ApplyKeepsInv | src/rabbitmq/rabbitmq.service.ts:79-112 | every step of the system, faults and crashes included, keeps the invariant |
| AllRuns.EveryRunIsSound | src/jobs/transfer.processor.ts:63-141 | the invariant holds in every state of every run |
| Guarantees.StepAppendsOneEvent | src/jobs/transfer.processor.ts:63-141 | a step changes the books only by appending one event, and exactly as that event says |
| Guarantees.Serialisable | src/jobs/transfer.processor.ts:63-141 | in every run, wallets and ledger are the committed jobs run one at a time in commit order, each passing its own checks there; earlier states of the run are intermediate states of that serial run |
| Guarantees.AtMostOnce | src/jobs/transfer.processor.ts:45-60 | each txId commits at most one movement over all job kinds, which leaves exactly its own rows in a ledger of distinct references |
| Guarantees.ClaimedForGood | src/database/schema.prisma:50 | in every run a transfer one of whose references was claimed by a funding or withdrawal never goes through again |
| Guarantees.LedgerReconciles | src/jobs/withdrawal.processor.ts:57-83 | in every state of every run balances, versions and ledger agree |
| Guarantees.LedgerColumnsAddUp | src/jobs/funding.processor.ts:84-95 | in every state of every run the ledger's columns add up to what the committed jobs withdrew, were charged and took in |
| Guarantees.LedgerRowsPair | src/jobs/transfer.processor.ts:113-134 | in every state of every run each row is well formed and each row of a transfer stands beside its partner |
| Guarantees.PartnersAreUnique | src/jobs/transfer.processor.ts:113-134 | in every state of every run each row of a transfer has exactly one partner |
| Guarantees.CommittedJobsAreProper | src/wallets/dto/withdraw-wallet.dto.ts:13 | in every run a committed withdrawal or transfer moved at least a cent without a fee, and a committed funding paid a whole number of cents nearest to half a percent |
| Guarantees.MoneyIsConserved | src/jobs/transfer.processor.ts:67-110 | in every state of every run no money of a currency is made or lost |
| Guarantees.NoOverdraft | src/jobs/withdrawal.processor.ts:48-66 | no interleaving overdraws a wallet, given non-negative starting balances and fundings |
| Guarantees.LedgerIsOwned | src/jobs/funding.processor.ts:53-95 | in every run ledger rows carry the owner of their wallet and jobs name their own wallets in their own currency |
| Guarantees.TransfersCrossUsers | src/jobs/transfer.processor.ts:64-110 | in every run committed transfers join two wallets of two users |
| Guarantees.TicketsTellTheTruth | src/jobs/funding.processor.ts:80-83 | a pending ticket, or none, means no committed effect; a success ticket means one, or a created wallet |
| Guarantees.StaleIff | src/jobs/transfer.processor.ts:90-110 | between a read and now a version moved exactly when a committed job named the wallet |
| Guarantees.FirstCommitterWins | src/jobs/transfer.processor.ts:90-110 | a guarded update is rejected exactly when another job committed on that wallet between this job's read and write |
| Guarantees.SameWalletAlwaysRejected | src/jobs/transfer.processor.ts:101-110 | in every run the second update of a same-wallet transfer is rejected |
| NoFault.CalmApply | src/jobs/funding.processor.ts:24-50 | every no-fault step keeps the no-fault invariant and changes no final ticket |
| NoFault.EveryNoFaultRunIsCalm | src/jobs/funding.processor.ts:24-50 | the no-fault invariant holds in every no-fault run: only the winner of a ticket changes it, from pending to one final status, and headers stay at zero until the txId has thrown |
| NoFault.CacheTellsTheTruth | src/jobs/funding.processor.ts:24-50 | in every no-fault run a cached status has a ticket, and a final one is the ticket's |
| NoFault.OutcomesAreFinal | src/jobs/funding.processor.ts:80-83 | in no-fault runs success and failed are final, and failed means no effect ever, success an effect |
| NoFault.OneThrowPerTxId | src/jobs/funding.processor.ts:119-129 | in no-fault runs no txId throws twice, no header of a ready, unacknowledged or running message exceeds one, nothing is dead-lettered |
| NoFault.RetriesAreInert | src/jobs/funding.processor.ts:119-129 | after a throw, every step of every further delivery of the txId leaves tables and tickets alone and does not fail |
| Messages.ThrowSendsBack | src/rabbitmq/rabbitmq.service.ts:95-108 | a worker whose handler threw leaves exactly one message of the same job with the next header, in the queue after the first and second failure and dead after the third, or none if the republish fails |
| Messages.ReturnNeverAcks | src/rabbitmq/rabbitmq.service.ts:88-91 | a worker whose handler returned leaves its message unacknowledged, and it can be redelivered |
| Messages.MessagesBalance | src/rabbitmq/rabbitmq.service.ts:82-110 | over queues and workers together, deliveries, crashes, returns and redeliveries keep the multiset of messages; a throw replaces one; only publishes and duplicates add one |
| Messages.CarriersBalance | src/rabbitmq/rabbitmq.service.ts:95-108 | the number of messages that carry a job goes down exactly at a failed republish of it and up exactly at a publish or duplicate |
| Messages.NoJobIsLost | src/rabbitmq/rabbitmq.service.ts:95-108 | over any stretch of a run without a failed republish of a job the number of its messages does not go down |
| Messages.NoFaultLosesNoJob | src/rabbitmq/rabbitmq.service.ts:95-108 | in no-fault runs the number of messages of a job never goes down |
| Messages.HeadersAreLegal | src/rabbitmq/rabbitmq.service.ts:95-108 | in every run a message that waits, runs or is unacknowledged has a header of at most two, and a dead one of exactly three |
| Scenarios.WorkersAreAtRisk | src/rabbitmq/rabbitmq.service.ts:82-91 | at any time any worker may crash, its message be duplicated and its open transaction be aborted |
| Scenarios.BrokerIsFree | src/rabbitmq/rabbitmq.service.ts:82-91 | the broker may deliver or duplicate any waiting message and redeliver or duplicate any unacknowledged one |
| Scenarios.CallersAreFree | src/wallets/dto/withdraw-wallet.dto.ts:13 | any cache entry may expire, any caller hang up, any publish fail, and exactly the calls arrive that the request validation lets through |
| Scenarios.AnySnapshotCanBeRead | src/jobs/transfer.processor.ts:64-65 | a read inside a transaction may see any committed state since the transaction began |
| Scenarios.NoFaultRunsHave | src/jobs/transfer.processor.ts:63 | aborts, duplicates, redelivery and expiry happen in no-fault runs too |
| Retry.RabbitMQService.Consume | src/rabbitmq/rabbitmq.service.ts:82-110 | one delivery: never acknowledged on return; on a throw replaced by a copy with a higher header, or a dead letter at the third failure |
| Retry.RepublishMeans | src/rabbitmq/rabbitmq.service.ts:95-108 | what replaces a message whose handler threw: one copy with the next header, in the queue before the third failure and dead from then on, or nothing if the broker is out of reach |
| Retry.MoveKeepsTidy | src/rabbitmq/rabbitmq.service.ts:82-110 | every move of the protocol keeps one live message per original and accounts for every call and throw |
| Retry.LineageGuarantee | src/rabbitmq/rabbitmq.service.ts:95-108 | each original has exactly one live descendant, at most three calls, and is dead-lettered exactly when three calls threw and the last is settled |
| Retry.RetriesTerminate | src/rabbitmq/rabbitmq.service.ts:95-108 | without new publishes the number of moves is bounded by remaining attempts plus pending settlements |
| Retry.QuietMeansFinished | src/rabbitmq/rabbitmq.service.ts:88-108 | when no move is left every original is settled or dead |
| Retry.ConsumeIsProtocol | src/rabbitmq/rabbitmq.service.ts:82-110 | the effect of one delivery on the queues is start and return, or start, raise, replace and acknowledge, of the protocol |
| Retry.NewTraced | src/rabbitmq/rabbitmq.service.ts:24-30 | a new service stands where the protocol starts, so its queues abstract a reachable state |
| Retry.ConsumeTraced | src/rabbitmq/rabbitmq.service.ts:82-110 | a call of Consume, with publishes succeeding, takes a service whose queues abstract a reachable protocol state to one that abstracts the state after that whole delivery |
| Retry.PublishTraced | src/rabbitmq/rabbitmq.service.ts:62-74 | a publish of the service starts the next lineage of the protocol it abstracts |
| Retry.ServiceLineage | src/rabbitmq/rabbitmq.service.ts:82-110 | in the service's own queues every original is once ready, handed out or dead (but for superseded copies), is called at most three times, and is dead exactly after three settled throws |
| Store.PrismaService.Rollback | src/jobs/transfer.processor.ts:63 | rolling back restores the exact tables the transaction began with |
| Store.PrismaService.UpdateWallet | src/jobs/transfer.processor.ts:90-99 | the guarded update matches id and version and writes, or changes nothing |
| Processors.Admit | src/jobs/funding.processor.ts:24-50 | idempotency check and pre-log, over all cache and ticket states and failing awaits |
| Processors.Catch | src/jobs/funding.processor.ts:118-130 | the catch block marks, caches and rethrows, except that a withdrawal returns |
| Handlers.DeliveryMovesIff | src/jobs/funding.processor.ts:24-130 | a delivery changes the books exactly when nothing screens it, its txId is new, no await through the commit fails and the tables serve the job, and then does what the job does alone |
| Handlers.DeliveryEnds | src/jobs/withdrawal.processor.ts:16-119 | when only the transaction may abort, a delivery is skipped under a final cached status or a ticket, and otherwise ends as a success or as a failure, each with its tables, ticket owner and status, cache entry, wallet lists and outcome spelled out |
| Handlers.ThrowsIff | src/jobs/withdrawal.processor.ts:110-118 | exactly when a handler throws, for every pattern of failing awaits: it stumbles before its end and, for a withdrawal, stumbles in its catch block too |
| Handlers.RequestAnswers | src/wallets/wallets.service.ts:95-269 | a funding request is a duplicate under any cached status or ticket, the others under a final cached status or any ticket, whose status is then cached |
| Handlers.CreationAnswers | src/wallets/wallets.service.ts:22-94 | a creation is a duplicate exactly under a cached success, a success ticket or a live wallet, an error exactly if only a deleted wallet or an unsuccessful ticket is in the way, and leaves exactly the wallet row, ticket row, cache entry and list it states |
| Processors.WalletTransferProcessor.Body | src/jobs/transfer.processor.ts:64-140 | the statements succeed together exactly when the job is served, and then do all of it |
| Processors.WalletTransferProcessor.Transact | src/jobs/transfer.processor.ts:63-141 | all or nothing: a failure at any statement restores the exact tables, otherwise both balances, both rows and the status change together |
| Processors.WalletTransferProcessor.Finish | src/jobs/transfer.processor.ts:143-198 | from the commit on: cache, both wallet lists, of which one may go and the other fail, and the catch block if something fails |
| Processors.WalletTransferProcessor.Handle | src/jobs/transfer.processor.ts:17-210 | the whole handler equals the one-delivery specification |
| Processors.WalletWithdrawalProcessor.Transact | src/jobs/withdrawal.processor.ts:47-84 | all or nothing for a withdrawal |
| Processors.WalletWithdrawalProcessor.Handle | src/jobs/withdrawal.processor.ts:16-119 | the whole handler equals the one-delivery specification |
| Processors.WalletFundingProcessor.Body | src/jobs/funding.processor.ts:64-95 | inside the transaction only existence is checked; for an owned wallet the result is the served job |
| Processors.WalletFundingProcessor.Transact | src/jobs/funding.processor.ts:52-96 | validation, fee and transaction: all or nothing for a funding |
| Processors.WalletFundingProcessor.Handle | src/jobs/funding.processor.ts:17-130 | the whole handler equals the one-delivery specification |
| FrontEnd.WalletsService.FundWallet | src/wallets/wallets.service.ts:95-159 | any cached status or any ticket is a duplicate; otherwise one message is queued, if the broker is reachable, and the answer is queued either way |
| FrontEnd.WalletsService.WithdrawOrTransfer | src/wallets/wallets.service.ts:182-269 | a final cached status or any ticket is a duplicate; otherwise one message is queued, if the broker is reachable, and the answer is queued either way |
| FrontEnd.WalletsService.CreateWallet | src/wallets/wallets.service.ts:22-94 | screening, insert, ticket and list extension, including the path where the ticket insert fails; the answer is a duplicate exactly under a cached success, a success ticket or a live wallet of the user in the currency |
| FrontEnd.WalletsService.GetUserWallets | src/wallets/wallets.service.ts:164-180 | a cached list is returned as it is and stays; otherwise the queried list, which shows exactly the user's wallets that are not deleted, newest first, is cached and returned |
| Solo.WorkerIsHandler | src/jobs/transfer.processor.ts:17-210 | an uninterrupted worker of the state machine ends with the tables, entries and outcome of the handler specification, for every pattern of failing awaits |
| Solo.AloneIsPossible | src/rabbitmq/rabbitmq.service.ts:82-91 | that uninterrupted run is a run of the system whenever no other worker holds a row lock |
| Solo.RequestIsHandler | src/wallets/wallets.service.ts:95-269 | an uninterrupted funding, withdrawal or transfer request of the state machine answers within three awaits, and leaves the tables and entries, as the front-end specification says |
| Solo.CreationIsHandler | src/wallets/wallets.service.ts:22-94 | an uninterrupted wallet creation of the state machine answers within six awaits, and leaves the tables and entries, as the creation specification says |
| Transparency.DeliveryTransparentIff | src/jobs/funding.processor.ts:24-50 | a delivery does and answers the same without its cache entry exactly when a final entry has a ticket |
| Transparency.RequestTransparentIff | src/wallets/wallets.service.ts:104-128 | a request does and answers the same without its cache entry exactly when a screening entry has a ticket |
| Transparency.CreationTransparent | src/wallets/wallets.service.ts:24-38 | a wallet creation does and answers the same without its cache entry, if a success entry has a success ticket |
| Transparency.CacheIsTransparent | src/jobs/funding.processor.ts:24-50 | in every state of every no-fault run a delivery or request that then runs alone cannot tell whether its entry expired |
| Transparency.CreationCacheIsTransparent | src/wallets/wallets.service.ts:24-38 | in every state of every no-fault run a wallet creation that then runs alone cannot tell whether its entry expired |
| Cacheless.TwinFollows | src/jobs/funding.processor.ts:24-50 | whatever no-fault step a state takes, its twin without cache entries reaches the twin of the next state in no-fault steps |
| Cacheless.EveryRunHasACachelessTwin | src/jobs/funding.processor.ts:24-50 | every interleaved no-fault run has a no-fault twin that goes through the same tables, history, queues, throws and answers, in the same order, with no cache entry there |
| Faults.HonestIff | src/jobs/transfer.processor.ts:199-204 | a step of any run makes some failed ticket belong to a txId with an effect exactly when a catch block marks such a txId, its await failing with effect included |
| Faults.MislabelledForGood | src/jobs/transfer.processor.ts:199-204 | no step ever repairs a failed ticket whose txId has had its effect |
| Faults.FailedMeansNoEffectIff | src/jobs/transfer.processor.ts:199-204 | in a run failed means no effect up to now exactly when no catch block so far marked a txId that had had its effect |
| Faults.FreshDeliveryMislabelsIff | src/jobs/transfer.processor.ts:143-204 | a delivery of a new txId moves money under a failed ticket exactly when all awaits through the commit succeed, a later one fails and the marking succeeds |
| Faults.RepeatedDeliveryMislabelsIff | src/jobs/funding.processor.ts:24-50 | a delivery of a succeeded txId turns its ticket to failed exactly when it is not screened, or its lookup fails, one of its first awaits fails and the marking succeeds |
| Faults.ErrorAfterCommitMislabels | src/jobs/transfer.processor.ts:199-204 | for every job that would go through there is a run at whose end its money has moved and its ticket says failed |
| Faults.LostCommitMislabels | src/jobs/transfer.processor.ts:199-204 | wherever a commit would go through, an error that hides its success leads to a failed ticket whose money has moved |
| Faults.RepeatedDeliveryMislabels | src/rabbitmq/rabbitmq.service.ts:88-91 | for every job that would go through there is a run in which it succeeds, its unacknowledged message is delivered again, that lookup fails, and its ticket ends as failed |
| Faults.EntriesHaveTicketsIff | src/jobs/funding.processor.ts:118-126 | a delivery leaves a cache entry without a ticket exactly when the txId is new, its lookup or pre-log fails and the catch block writes the entry |
| Faults.BackedIff | src/jobs/funding.processor.ts:118-126 | a step of the interleaved system leaves a cache entry without a ticket exactly when a catch block caches a failure for a txId without a ticket |
| Faults.EntriesHaveTicketsUntil | src/jobs/funding.processor.ts:118-126 | until a catch block of a run first caches a failure for a txId without a ticket, every cached status has a ticket |
| Faults.EntryWithoutTicket | src/jobs/funding.processor.ts:118-126 | for every job there is a run at whose end the cache says failed of a txId that has no ticket |
| Faults.FailedPreLogShows | src/jobs/funding.processor.ts:24-50 | a cached failure without a ticket makes every retry return without effect, though without the entry the job goes through |
| Locks.BlockedIff | src/jobs/transfer.processor.ts:90-110 | a worker with an await to take can take it, or have it fail, exactly when it waits for no other worker's row |
| Locks.CycleIff | src/jobs/transfer.processor.ts:90-110 | workers wait for each other in a circle exactly when they are transfers between their two updates, each about to credit the wallet the next has debited |
| Locks.BlockEachOtherIff | src/jobs/transfer.processor.ts:90-110 | two workers block each other exactly when they are opposite transfers between their updates |
| Locks.CycleIsStuck | src/jobs/transfer.processor.ts:90-110 | only a database abort or a crash of one of its workers ends a circle of waiting workers |
| Locks.FollowWaits | src/jobs/transfer.processor.ts:90-110 | from every worker that wants a row, following who waits for whom ends at a transaction that can take its next step or comes back to a worker already passed, which closes a circle |
| Locks.StuckIff | src/jobs/transfer.processor.ts:90-110 | the waits of a worker that wants a row lead into a circle exactly when they do not lead to a transaction that can take its next step |
| Locks.RingDeadlocks | src/jobs/transfer.processor.ts:90-110 | any transfers that would each go through and whose wallets form a ring of whatever length, each debited once, have a run at whose end they all wait in a circle |
| Locks.OppositeTransfersDeadlock | src/jobs/transfer.processor.ts:90-110 | any two opposite transfers that would both go through have a run at whose end each waits for the other |
| Locks.AscendingHasNoCycle | README.md:71 | if every transfer in flight debits the smaller id, no circle forms |
| Locks.AscendingGoesOn | README.md:71 | if every transfer in flight debits the smaller id, the waits of every worker lead, one worker to the next, to a transaction that can take its next step |
| WalletLists.OneOrder | src/wallets/wallets.service.ts:171-177 | with distinct creation times two newest-first lists of a user's wallets show the same ids in the same places |
| WalletLists.FreshListExists | src/wallets/wallets.service.ts:171-177 | a query always has a newest-first result with exactly the user's live wallets |
| WalletLists.DeliverKeepsList | src/jobs/withdrawal.processor.ts:89-90 | a delivery keeps cached lists right up to the balance of a wallet whose funding went through |
| WalletLists.FundingKeepsListIff | src/jobs/funding.processor.ts:98-116 | a funding delivery leaves an exact cached list exact if and only if it is not the case that the list is its user's and, in the state before, nothing screens the delivery, its txId is new, no await through the commit fails and the tables serve the job |
| WalletLists.StaleAfterFunding | src/jobs/funding.processor.ts:98-116 | a funded wallet whose cached list still shows the old balance |
| WalletLists.CreateKeepsListIff | src/wallets/wallets.service.ts:35-90 | creating a wallet keeps its user's cached list exact if and only if it does not reach the insert under a txId that has a ticket while the list is cached |
| WalletLists.ErrorAfterInsertIff | src/wallets/wallets.service.ts:53-70 | a creation inserts its wallet exactly when nothing screens or refuses it and the user has none in the currency, and then answers with an error exactly when its txId has a ticket |
| WalletLists.ListsStayCoherent | src/wallets/wallets.service.ts:83-90 | through every sequential no-fault run without a stranding creation a cached list is exact but for wallets whose funding went through since it was filled |
| WalletLists.CachedListIsFresh | src/wallets/wallets.service.ts:83-90 | in every state of such a sequential run a cached list shows the ids, in the order, that a query would show now, and the same rows but for wallets whose funding went through since |
| WalletLists.StrandedWallet | src/wallets/wallets.service.ts:53-70 | a creation under the txId of a failed ticket inserts a wallet that the cached list does not show |

## Left out

- NestJS wiring, controllers, authentication, rate limiting and response bodies: plumbing.
- Users, profile cache, login logs, notifications and the `user:transactions` cache: they move no money, and nothing creates a `user:transactions` entry. Their awaits appear as one await that may fail.
- Inside MySQL and Prisma: a guarded update matches and writes atomically or finds no row, a transaction commits atomically or rolls back, a unique key is checked at the insert and at the commit. Row locks are modelled for wallets; the blind status updates of a ticket are not ordered by locks, which only adds interleavings.
- Doubles: amounts, comparisons and the fee product are exact; which way a tie of the fee goes is left open. Amounts below 0.0001 do not exist.
- Wall-clock TTLs and collation: expiry is a step that may happen at any time, txIds are compared as strings.
- Order inside the queues and prefetch limits: queues are multisets, so any waiting message may be next. Republish and ack of one message are one step; a crash between them is covered by the step that copies a message in flight.
- Awaits that fail after taking effect: the state machine has them for every await, the one-delivery specification of `Handlers` only for the list deletions.
- The wallet list cache under interleaving and under faults: the service does not keep it coherent there, so `WalletLists` runs operations one at a time.
- Eventual completion: a crash after the pre-log leaves a ticket pending for ever, so only at-most-once is claimed.
- Deadlock detection: the database may abort any open transaction at any time; when it picks a victim is not modelled.
- A run starts with any wallets, one per user and currency, and with empty ledger, tickets, cache and queues.
- Referential integrity towards the User table: users are assumed to exist.
