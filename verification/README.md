# LedgerFlow, modelled and proved

LedgerFlow keeps money as immutable double-entry ledger rows in PostgreSQL, answers balance queries
through a Redis cache, hands each posting to Kafka through a transactional outbox, and keeps a derived
balance table up to date with an idempotent consumer. What makes it hard is interleaving: calls overlap,
workers are slow or die between two statements, messages come twice. This project models each component
as a transition system whose steps are the statements of the code, in any order and with any failure, and
the service code itself as imperative Dafny proved against the functions those systems are built from.

- **Ledger** (`LedgerTables`, `LedgerMachine`, `LedgerLocks`, `LedgerFunds`, `LedgerBooks`, `LedgerReplay`,
  `LedgerCache`, `LedgerGuards`, `LedgerTheorems`, `LedgerQueries`). Every `create_deposit`,
  `create_withdrawal`, `create_transfer` and `get_balance` call has a program counter: check the key, lock row
  by row, read the balance, stamp, insert, commit, delete cache keys. Reads are READ COMMITTED; a held row lock and a key held by an uncommitted
  insert make a step wait. Crashes, Redis failures, clock ticks and account status changes happen anywhere.
  A run is a sequence of actions, and a theorem about runs is about every such sequence.
- **Ledger service** (`LedgerService`, `LedgerRefinement`, `LedgerRaces`, `LedgerStaleness`, `LedgerWitnesses`).
  The functions as methods over one session; a call of the machine that is left alone ends as the method
  promises; exactly what can go wrong when calls overlap, and reachable runs in which it does.
- **Outbox** (`OutboxRows`, `OutboxMachine`, `OutboxBackoff`, `OutboxLease`, `OutboxResend`, `OutboxWorkers`,
  `OutboxRefinement`, `OutboxDrain`). Any number of workers recover, claim, send and mark in separate
  transactions; the worker class is proved to perform runs of that protocol.
- **Consumer** (`Projections`, `ConsumerMachine`, `ConsumerService`, `ConsumerDrain`). Registration, upserts,
  commit and offset commit as steps, with reassignment, duplicates, rewinds and crashes; the consumer class
  refines them; and consumers can always finish what they have.
- **Pipeline** (`Pipeline`, `PipelineDrain`, `PipelineWitness`). The three composed.

Amounts are decimal texts; `Config.decimal` gives their value in cents, not necessarily whole, and stored
amounts are rounded as NUMERIC(20, 2) rounds. Times are microseconds.

What the proofs found, each kept as the code has it and stated exactly:

- A posted transfer is never projected: the ledger writes `from_account_id` and `to_account_id`, the consumer
  reads `source_account_id` and `destination_account_id`. Its event stops its partition
  (`Pipeline.TransfersNeverDrain`), and with it every deposit and withdrawal all of whose copies lie behind a
  transfer. Customers who never transferred are affected too: the projection of an account is short of the
  ledger by exactly what these unreachable rows say (`Pipeline.ProjectionMissesWhatIsBlocked`), and rows shut
  out of every partition stay out for good (`Pipeline.ShutOutForGood`, `PipelineDrain.LostBehindATransfer`);
  a run from the start that does this to a customer who never transferred:
  `PipelineWitness.TransferCostsBystanderADeposit`.
  Without transfers and FAILED rows the pipeline can always be brought to rest
  (`PipelineDrain.PipelineCanDrain`).
- A second call with the same key and the same request can answer "Insufficient funds" although the first
  one committed, since the funds check comes before the keyed insert. Exactly when: `LedgerRaces.RacerIsReplayedIff`
  for a call that runs alone from there, `LedgerRaces.RacerInAnySchedule` among other calls; a run of it:
  `LedgerWitnesses.RacerCanLackFunds`. A call that starts after the commit is always replayed
  (`LedgerTheorems.RetriesAreReplayed`).
- The balance cache can be wrong for good, as it has no expiry. Exactly two kinds of step cause that: a reader
  writes a balance that commits have overtaken, with no delete of the key still to come; or the last delete owed
  of a wrong value is dropped, by a crash, a failed delete, or an earlier delete that raised
  (`LedgerStaleness.StalenessIsExact`). A run of the first, with Redis working and nobody crashing:
  `LedgerWitnesses.CacheCanStayStale`. Without either, the cache is exact whenever no delete is owed
  (`LedgerStaleness.CacheIsExactAtRest`).
- A point-in-time balance can change after it has been read, because `created_at` is taken before the commit
  (`LedgerFunds.UnsettledAnswerChanges`, `LedgerWitnesses.PastCanChange`); it is final once no uncommitted call
  holds an earlier stamp (`LedgerTheorems.SettledPastIsFinal`).
- PUBLISHED is not final when a claim outlives its 30 seconds (`OutboxLease.OnlyMarksUndoTerminal`,
  `OutboxLease.PublishedCanReopen`).
- SYSTEM_CASH is not projected (`Projections.SystemCashIsNotProjected`).
- The 60-second cap on the retry delay is never reached (`OutboxRows.BackoffNeverCapped`).

The repository's documentation promises idempotent retries, a cache that is invalidated on every write and
an eventually consistent projection without these conditions; where they differ, the model follows the code.

## Model

| member | source | states |
|---|---|---|
| LedgerTheorems.NoOverspending | app/ledger/service.py:281-317 | in every run of any concurrent calls, no account but SYSTEM_CASH is overdrawn, neither now nor at any instant get_balance_at may be asked about, although deposits take no lock and stamps precede commits |
| LedgerFunds.FundsInvStep | app/ledger/service.py:535-552 | every step keeps: no negative point-in-time balance, and each pending debit stays covered from the moment its funds were read until it commits |
| LedgerFunds.CommitKeepsCover | app/ledger/service.py:492-499 | a commit can only credit an account some other call is about to debit, because the debitor holds that row |
| LedgerFunds.ReadCovers | app/ledger/service.py:301-317 | a balance read under the row lock covers the debit at that instant and every later one, though the check uses the unrounded amount |
| LedgerFunds.SettledStep | app/ledger/service.py:731-776 | once no uncommitted posting is stamped at or before t, no step changes the balance at t |
| LedgerTheorems.SettledPastIsFinal | app/ledger/service.py:731-776 | and no later schedule does |
| LedgerFunds.UnsettledAnswerChanges | app/ledger/model.py:78-82 | a commit changes the balance at t if and only if it is stamped by t and moves that account's money: answers about the recent past are not final |
| LedgerFunds.CurrentBalanceIsNonNegative | app/ledger/service.py:233-246 | the current balance of a customer is never negative |
| LedgerTables.PostMovesMoney | app/ledger/service.py:752-772 | a posting moves each balance by its delta, now and from its stamp on, and not before |
| LedgerTables.BalanceAtNow | app/ledger/service.py:768-771 | the point-in-time sum at or after every stamp is the current balance |
| LedgerTables.OnlyTheDebitedAccountLoses | app/ledger/service.py:351-368 | besides SYSTEM_CASH only the withdrawing or sending account can lose money, and at most the rounded amount |
| Money.RoundingLaws | app/ledger/model.py:123-126 | rounding to cents is odd, monotone and exact on whole cents |
| Money.RoundsToNearestCent | app/ledger/model.py:123-126 | the stored amount is the nearest cent, ties going away from zero |
| Money.CheckedDebitIsCovered | app/ledger/service.py:316-317 | a balance that passes the check on the unrounded amount covers the rounded debit |
| LedgerLocks.LockInvStep | app/ledger/service.py:482-499 | every step keeps lock ownership, lock order and key ownership consistent with the program counters |
| LedgerLocks.WaitingClimbs | app/ledger/service.py:482-485 | a waiting call always waits for one that waits for something higher, rows by id and the key slot last, or does not wait |
| LedgerLocks.NoDeadlock | app/ledger/service.py:492-499 | the waits-for relation has no cycle of any length |
| LedgerLocks.StuckMeansBlocked | app/ledger/service.py:558-571 | a call fails to move exactly when it is finished or waits for a lock that is held |
| LedgerLocks.SomeoneCanMove | app/ledger/service.py:492-499 | while any call is unfinished, some unfinished call can step |
| LedgerLocks.RunsAreBounded | app/ledger/service.py:420-674 | any schedule contains at most WorkLeft steps of the calls |
| LedgerLocks.EveryoneFinishes | app/ledger/service.py:420-674 | from every state with sound locks a schedule in which nobody crashes and Redis works runs every call to its end |
| LedgerTheorems.CallsTerminate | app/ledger/service.py:482-499 | in every run: no waiting cycle, a bound on the steps taken, and a continuation of ordinary steps, no crashes, that finishes every call |
| LedgerTheorems.SoundRun | app/ledger/service.py:60-674 | every run of the ledger keeps all its invariants together |
| LedgerBooks.BooksInvStep | app/ledger/service.py:105-167 | every step keeps transactions, entries and outbox rows in correspondence and balances equal to what the outbox rows add up to |
| LedgerBooks.PostRecordsItself | app/ledger/service.py:577-615 | a commit leaves for its transaction exactly two entries and one outbox row, with the request's accounts, amount and type |
| LedgerBooks.PostKeepsOldRecords | app/ledger/service.py:558-616 | and disturbs the records of no earlier transaction |
| LedgerGuards.CommitsMeetActiveAccounts | app/ledger/service.py:492-527 | in every run a withdrawal or transfer commits only against accounts that are ACTIVE at that commit, a transfer between two different ones of one currency |
| LedgerGuards.RowsCarryTheirCurrency | app/ledger/service.py:602-614 | in every run each outbox row names its transaction and carries the currency of the account it names |
| LedgerTables.DepositInColumns | app/ledger/service.py:105-155 | a deposit adds one transaction, two entries that take the rounded amount from SYSTEM_CASH and give it to the account, and one row with its payload key by key |
| LedgerTables.WithdrawalInColumns | app/ledger/service.py:341-388 | likewise, the other way round |
| LedgerTables.TransferInColumns | app/ledger/service.py:561-615 | likewise from source to destination, with the key and the hash of "from:to:amount" on the transaction |
| LedgerBooks.PayloadTellsTheEntries | app/ledger/service.py:141-155 | the payload, which carries the unrounded amount, read back and rounded is exactly what the entries moved |
| LedgerBooks.DoubleEntry | app/ledger/service.py:115-132 | each transaction has two entries of opposite sign and one outbox row |
| LedgerBooks.InflowLeavesSystemCash | app/ledger/service.py:115-127 | what the outbox says came in to customers is what it says left SYSTEM_CASH |
| LedgerBooks.MoneyIsConserved | app/ledger/service.py:115-127 | all entries sum to zero and customers together hold deposits minus withdrawals, adjusted by transfers that name SYSTEM_CASH |
| LedgerTheorems.BooksAlwaysBalance | app/ledger/service.py:141-167 | the same in every run, and no entry or outbox row exists without its transaction |
| LedgerReplay.ReplayInvStep | app/ledger/service.py:642-674 | every step keeps: one transaction per key, one per call, a key violation always finds its winner, every answer carries the call's key and hash |
| LedgerReplay.CommitKeepsKeys | app/ledger/model.py:37-40 | a commit never creates a second transaction with a key, since the inserter alone holds the key slot |
| LedgerReplay.TransferAnswersForItself | app/ledger/service.py:665-674 | a transfer that answers, by posting or replay, names the only transaction with its key, whose entries are the movement it asked for; one told that its key belongs to a different request is told so only if the call that posted the key asked for another source, destination or printed amount; the integrity error is never re-raised |
| LedgerTheorems.TransfersAreIdempotent | app/ledger/service.py:437-457 | the same for every transfer in every run |
| LedgerTheorems.RetriesAreJudgedByRequest | app/ledger/service.py:437-457 | in every run, a call that starts after call q posted its key ends, short of a crash, with that transaction if and only if its source, destination and amount text are those of q, and otherwise is told of a different request |
| LedgerReplay.FingerprintTells | app/ledger/service.py:561-567 | the stored hash is that of the request which was posted: it accepts exactly the same source, destination and amount text |
| LedgerTheorems.RetriesAreReplayed | app/ledger/service.py:437-457 | a call that starts after its key was committed answers, in every interleaving, with that transaction or that the key belongs to a different request, whatever balances and accounts have become |
| LedgerTheorems.RetryStep | app/ledger/service.py:437-457 | and its own steps write neither tables nor cache |
| LedgerReplay.RetryChangesNothing | app/ledger/service.py:446-457 | one step of that: the fast check of a call with a committed key answers with that transaction and changes no table, account or cached value |
| RequestHash.UuidTextReadsBack | app/ledger/service.py:45-49 | the text of a UUID is 8-4-4-4-12 lower-case hexadecimal digits which read back give it, most significant digit first |
| RequestHash.TransferTextInjective | app/ledger/service.py:45-49 | the hashed text determines source, destination and amount text |
| RequestHash.SameHashSameRequest | app/ledger/service.py:40-53 | without digest collisions, equal hashes if and only if same accounts and same printed amount |
| LedgerCache.CacheInvStep | app/ledger/cache.py:11-44 | every step keeps: every cached, read or answered balance was the committed balance after some number of commits; a query that reads gets the balance of that moment, and Redis is given only what a query has read |
| LedgerQueries.BalancesAreHistorical | app/ledger/service.py:194-265 | in every run, whatever get_balance answers and whatever Redis holds was, at a step of the run at which a query of that account read it, the sum of its entries |
| LedgerQueries.QueryAloneAnswers | app/ledger/service.py:194-265 | a query that runs alone answers the cached value, "Account not found" or the sum of the entries, which it then caches: what the method promises |
| LedgerQueries.MissAnswersBetween | app/ledger/service.py:222-246 | in every interleaving a query that missed the cache answers the balance after n commits, n between the commits at its start and those at its return |
| LedgerStaleness.StalenessIsExact | app/ledger/service.py:176-265 | a step leaves Redis wrong about a customer for good iff it writes an overtaken balance with no delete owed or drops the last delete owed of a wrong one, and ends that iff it writes the current balance or commits a posting that names the customer |
| LedgerStaleness.CacheIsExactAtRest | app/ledger/service.py:625-638 | in a run without such a step the cache is exact for every customer whenever no delete is owed, in particular when all calls are over |
| LedgerStaleness.StaysWrong | app/ledger/cache.py:25-35 | and once wrong for good it stays wrong until such a write or commit |
| LedgerStaleness.CommitOwes | app/ledger/service.py:402-405 | after its commit a call owes Redis the keys of the accounts it names and no others |
| LedgerStaleness.TransferDeletes | app/ledger/service.py:625-638 | after a transfer the source's key is deleted first; the destination's is deleted only if the first delete did not raise, and is skipped otherwise |
| LedgerWitnesses.CacheCanStayStale | app/ledger/cache.py:25-35 | a reachable run, with Redis working and nobody crashing, in which a reader writes after the invalidation and Redis is left wrong for good with every call over |
| LedgerRaces.RacerIsReplayedIff | app/ledger/service.py:535-571 | a transfer that passed the fast check before its key was committed, run alone under every Redis behaviour, is replayed if and only if rows and funds would allow it a second time |
| LedgerRaces.RacerUnderInterleaving | app/ledger/service.py:535-674 | among any other calls, a racer that holds its rows ends, unless it crashes, with "Insufficient funds" if the balance it reads is below its amount and with the replay otherwise |
| LedgerRaces.RacerInAnySchedule | app/ledger/service.py:463-674 | from the fast check on, in any schedule at all, the racer takes locks until one of its own steps settles its answer for good: the row problem it sees under its locks, "Insufficient funds" or the replay by the balance read at that step; otherwise only a crash ends it |
| LedgerWitnesses.RacerCanLackFunds | app/ledger/service.py:551-552 | a reachable run: the second of two identical calls passes the fast check, the first then commits, and the second, running on alone, answers "Insufficient funds" |
| LedgerWitnesses.PastCanChange | app/ledger/service.py:731-776 | a reachable run, without crashes, in which the balance at an instant already past is 0 when asked for and positive after the next commit |
| LedgerService.LedgerSession.CreateDeposit | app/ledger/service.py:60-187 | posts if and only if the account and SYSTEM_CASH exist and the account is ACTIVE, and then adds exactly its transaction, entries and row, currency included, and drops the account's cache key; otherwise nothing changes |
| LedgerService.LedgerSession.CreateWithdrawal | app/ledger/service.py:272-413 | likewise, if and only if also the balance covers the amount; the funds are checked before SYSTEM_CASH is looked up |
| LedgerService.LedgerSession.CreateTransfer | app/ledger/service.py:420-674 | posts if and only if the key is unused, the accounts differ, exist, are ACTIVE and share a currency, and the source covers the amount; adds exactly its transaction, entries and row; deletes the two cache keys in turn, the second only if the first delete did not raise; a used key answers instead, also when a rival commits it before the insert, by whether the movement asked for is the same |
| LedgerService.TransferTwice | app/ledger/service.py:437-457 | of two transfers with one key the second gets the first's transaction iff source, destination and amount text agree, is refused otherwise, and adds nothing |
| LedgerService.DeletesByKey | app/ledger/service.py:625-638 | which of the two cache keys is gone, for each way the deletes can go |
| LedgerService.DepositRefusals | app/ledger/service.py:77-99 | each refusal if and only if its condition holds and no earlier one does |
| LedgerService.WithdrawalRefusals | app/ledger/service.py:291-335 | likewise for withdrawals |
| LedgerService.TransferRefusals | app/ledger/service.py:463-552 | likewise for transfers |
| LedgerService.LedgerSession.LoseRace | app/ledger/service.py:642-674 | after the unique violation nothing of the call remains and the winner is replayed or, if it was another request, refused |
| LedgerService.LedgerSession.CheckTransfer | app/ledger/service.py:463-552 | the problem found is the first one in the order same account, missing, inactive, currency, funds |
| LedgerService.LedgerSession.BuildEntries | app/ledger/service.py:577-592 | two rows of the transaction, one amount in whole cents from payer to payee: cents cancel, and payer and payee are the request's accounts or SYSTEM_CASH |
| LedgerService.LedgerSession.GetBalance | app/ledger/service.py:194-265 | the cached value or the sum of the entries; while calls do not overlap and deletes succeed it is the current balance of every account but SYSTEM_CASH |
| LedgerService.LedgerSession.GetBalanceAt | app/ledger/service.py:731-776 | the sum up to the instant, which is the current balance once that covers every transaction |
| LedgerService.PostKeepsSession | app/ledger/service.py:558-616 | a posting keeps keys unique and entries joined, and moves no balance whose cache key is not dropped, SYSTEM_CASH apart |
| LedgerRefinement.SoloRun | app/ledger/service.py:60-674 | a call of the machine that runs alone, whatever Redis does, is at each point on the way to, and if finished has, the outcome and tables the service methods promise |
| LedgerRefinement.SoloFinishes | app/ledger/service.py:60-674 | and it does finish when nobody else holds a lock |
| OutboxMachine.RowsAlwaysCoherent | app/outbox/service.py:35-142 | in every run, with arbitrarily stale workers: PROCESSING iff claimed_at, open rows below 5 retries with next_retry_at iff retried, FAILED only after 5 retries, PUBLISHED only with the row's own event in the log |
| OutboxMachine.RowsInvStep | app/outbox/worker.py:113-170 | one step of that |
| OutboxMachine.ClaimsAreSeparated | app/outbox/service.py:41-59 | in any run, between two claims of one event, by whichever workers, lies a recovery or a mark of it |
| OutboxBackoff.RetriesWait | app/outbox/service.py:43-48 | in every run no claim of an event comes before 2, 4, 8 or 16 seconds after the mark of its first, second, third or fourth failure, unless it is marked in between with an earlier clock |
| OutboxMachine.OneMessageIsDelivered | app/outbox/worker.py:124-128 | an acknowledged send appends one copy at the end of one partition, a plain failure nothing |
| OutboxRows.MarksKeepCoherence | app/outbox/service.py:106-142 | neither mark needs to know the row's status to leave it coherent |
| OutboxRows.BackoffNeverCapped | app/outbox/service.py:132-142 | a row put back waits 2, 4, 8 or 16 seconds |
| OutboxRows.OutboxEvent.MarkPublished | app/outbox/service.py:106-115 | the row is PUBLISHED with the time of the mark, without error, retry time or claim, its retry count unchanged |
| OutboxRows.OutboxEvent.MarkFailed | app/outbox/service.py:118-142 | one more retry, the first 1000 characters of the error, no claim; FAILED iff five retries are reached, else PENDING for 2, 4, 8 or 16 seconds |
| OutboxLease.LeasesAreExclusive | app/outbox/service.py:66-103 | if every mark comes within 30 seconds of its claim, each row has at most one live holder and is PROCESSING with that holder's claim time |
| OutboxLease.LeaseInvStep | app/outbox/worker.py:86-172 | one step of that |
| OutboxLease.TerminalForever | app/outbox/service.py:106-129 | and then PUBLISHED and FAILED rows never change |
| OutboxLease.OnlyMarksUndoTerminal | app/outbox/service.py:106-142 | in general a finished row changes status or count iff a failed send of it is marked or a FAILED row is marked published; it reopens iff a failed send is marked with retries to spare; under exclusive leases only late marks touch it |
| OutboxLease.PublishedCanReopen | app/outbox/worker.py:136-149 | a reachable run in which a PUBLISHED row becomes PENDING |
| OutboxResend.ResendsAreBounded | app/outbox/worker.py:81-174 | with one worker and any crashes: at most 5 + crashes sends of an event, at most 1 + crashes acknowledged ones, at most 5 retries |
| OutboxResend.AccountedStep | app/outbox/worker.py:113-170 | each send is accounted for as a retry, as the publication, as in flight, or as lost to a crash |
| OutboxResend.OneWorkerTerminalForever | app/outbox/service.py:106-142 | with one worker PUBLISHED and FAILED rows never change, however slow it is |
| OutboxWorkers.SelectEarliest | app/outbox/service.py:50-52 | the first rows in time order, as many as the limit allows, none left out earlier than one taken |
| OutboxWorkers.OutboxTable.ClaimPendingEvents | app/outbox/service.py:35-63 | claims a selection of the due unlocked PENDING rows, the earliest created first; all others unchanged |
| OutboxWorkers.ClaimInColumns | app/outbox/service.py:41-59 | in columns: every row returned was PENDING, unlocked, never retried or past its retry time, oldest first; it becomes PROCESSING at the claim's time; a row of that kind is left out only when the limit is reached and no row taken is younger |
| OutboxWorkers.OutboxTable.RecoverStaleEvents | app/outbox/service.py:66-103 | releases exactly the longest-claimed unlocked rows whose claim is 30 seconds old; all others unchanged |
| OutboxWorkers.RecoveryInColumns | app/outbox/service.py:77-99 | in columns: every row released was PROCESSING with a claim at least 30 seconds old, longest-claimed first; it becomes PENDING and keeps its retries; younger claims and all else stay |
| OutboxWorkers.OutboxWorker.PublishAll | app/outbox/worker.py:107-174 | after the loop rows, topic and count are those of sending and marking each event in turn |
| OutboxWorkers.OutboxWorker.ProcessBatch | app/outbox/worker.py:81-174 | recovers, claims, sends and marks; the count is the acknowledged sends |
| OutboxWorkers.AckedInCounts | app/outbox/worker.py:130-174 | the count returned is the number of positions in the batch that were acknowledged: none if all sends raise |
| OutboxWorkers.OutboxWorker.Run | app/outbox/worker.py:35-77 | one batch after another until stop() |
| OutboxRefinement.ProcessBatchIsARun | app/outbox/worker.py:81-174 | what process_batch promises is the end of a run of the lease protocol, so every guarantee of the protocol holds of it |
| OutboxRefinement.PublishingIsARun | app/outbox/worker.py:113-172 | after k events of the batch the protocol is where the loop is |
| OutboxDrain.WorkerDrainsOutbox | app/outbox/worker.py:47-60 | one worker alone, each batch starting when all retries are due, leaves every one of n pending rows PUBLISHED or FAILED after 5n/limit + 5 batches, whatever the sends do |
| OutboxDrain.RoundMeasure | app/outbox/service.py:118-142 | a batch is full or takes every live row, and each row taken loses an attempt |
| OutboxDrain.OutboxDrains | app/outbox/service.py:35-63 | the bound for any sequence of such rounds |
| Projections.ProjectionAgreesWithLedger | app/consumers/projection_service.py:25-43 | an event that decodes changes every customer's projection exactly as it changed the ledger |
| Projections.TransferEventMoves | app/consumers/projection_service.py:45-71 | a transfer event with the consumer's keys takes the rounded amount from the source and gives it to the destination, touches nobody else, and changes nothing if they are one account |
| Projections.AccountEventMoves | app/consumers/projection_service.py:25-43 | a deposit event credits its account, a withdrawal event debits it |
| Projections.DecodesWithItsKeys | app/consumers/projection_service.py:22-54 | an event raises iff a key its type needs is missing; unknown types change nothing |
| Projections.EmittedTransfersDoNotDecode | app/ledger/service.py:602-614 | of the rows the ledger writes, exactly the transfers fail to decode |
| Projections.SystemCashIsNotProjected | app/ledger/service.py:145-154 | a decoded event agrees with the ledger on SYSTEM_CASH if and only if its rounded amount is zero |
| Projections.ApplyAllAdds | app/consumers/projection_service.py:97-118 | a sequence of upserts adds its changes to each balance, whether the row existed or not |
| ConsumerMachine.EffectsAreExactlyOnce | app/consumers/consumer.py:93-140 | in every run the projection of each account is the sum over the distinct processed events, each registered and applied together or not at all |
| ConsumerMachine.CommitCountsOnce | app/consumers/service.py:41-56 | a commit adds its event's change once |
| ConsumerMachine.AcknowledgedMeansProcessed | app/consumers/consumer.py:49-82 | in every run everything below a committed offset is processed, even when a stale consumer moves the offset back |
| ConsumerMachine.UndecodableBlocksItsPartition | app/consumers/consumer.py:127-140 | an event that cannot be decoded is never processed, the committed offset never passes it, and a message behind it is processed only through a copy elsewhere with nothing undecodable before it |
| ConsumerMachine.ProcessedIsReachable | app/consumers/consumer.py:84-140 | every processed event has a copy with nothing undecodable up to it: events all of whose copies lie behind undecodable ones are never processed |
| ConsumerDrain.EverythingCanBeConsumed | app/consumers/consumer.py:49-147 | when all messages decode, whatever the consumers have in hand, a schedule without crashes consumes every partition to its end |
| ConsumerService.Session.MarkEventProcessed | app/consumers/service.py:28-56 | registers a new id inside the open transaction, or rolls back and says so |
| ConsumerService.Session.ApplyBalanceProjection | app/consumers/projection_service.py:11-71 | raises exactly when a payload key is missing and then writes nothing; otherwise applies the event's changes |
| ConsumerService.LedgerEventConsumer.ProcessMessage | app/consumers/consumer.py:84-147 | commits registration and projection together, then the offset; a duplicate is acknowledged only, an undecodable one neither |
| ConsumerService.LedgerEventConsumer.Run | app/consumers/consumer.py:49-61 | consumes the messages of all its partitions in the order they come, up to the first that raises or to stop(); the offsets are those of the messages acknowledged |
| ConsumerService.CommittedByPartition | app/consumers/consumer.py:63-82 | each partition's committed offset is then one after its own last message, and others are untouched |
| ConsumerService.ProcessMessageIsARun | app/consumers/consumer.py:84-147 | the method is a run of the consumer machine |
| Pipeline.InvRun | app/ledger/service.py:141-167 | in every run of the composed system outbox rows are the ledger's rows, the topic carries only outbox events, and all component invariants hold |
| Pipeline.ProjectionLag | app/consumers/projection_service.py:109-114 | at every moment ledger balance = projected balance + what unprocessed outbox rows still say |
| Pipeline.DrainedPipelineConverges | app/consumers/projection_service.py:11-71 | in every run, once everything is published and consumed, each customer's projection equals the ledger |
| Pipeline.TransfersNeverDrain | app/consumers/projection_service.py:46-52 | with a transfer posted that never happens: its event stays unprocessed, no offset passes a copy of it, and nothing is processed but through copies with no undecodable message before them |
| Pipeline.ProjectionMissesWhatIsBlocked | app/consumers/projection_service.py:45-71 | once every partition is read up to its first undecodable message, a customer's projection is short of the ledger by exactly what the rows without a reachable copy say (transfers, and whatever lies behind one), and agrees iff these cancel out |
| Pipeline.ShutOutForGood | app/consumers/consumer.py:127-140 | an event shut out of every partition is processed in no continuation whatever |
| PipelineDrain.LostBehindATransfer | app/outbox/worker.py:113-172 | on a single partition, one schedule publishes a transfer and then another row, marks both PUBLISHED and shuts the other row out: no continuation whatever projects it |
| PipelineWitness.TransferCostsBystanderADeposit | app/outbox/worker.py:113-172 | a run from the start, without crashes, after which a customer who never transferred owns a PUBLISHED deposit in the ledger and, in every continuation, nothing in the projection |
| PipelineDrain.PipelineCanDrain | app/outbox/worker.py:81-174 | with no transfer posted and no row FAILED, one idle worker and one consumer can bring the pipeline to rest without a crash, whatever the others have in hand; every customer's projection then equals the ledger |
| PipelineDrain.ReachableStatesCanDrain | app/consumers/consumer.py:49-147 | so it is from every reachable state |

## Left out

- LedgerLocks.NoDeadlock: row locks of SELECT ... FOR UPDATE and key slots only; the share locks PostgreSQL takes on accounts for foreign keys are not modelled, and with them a withdrawal or transfer naming SYSTEM_CASH itself would need its own treatment.
- LedgerLocks.EveryoneFinishes: a finishing continuation without crashes exists and all runs are bounded; that the scheduler keeps scheduling is PostgreSQL's and asyncio's part.
- RequestHash.SameHashSameRequest: SHA-256 is a parameter assumed free of collisions; amounts that print differently ("1.0" and "1.00") are different requests, as in the code.
- PipelineDrain.PipelineCanDrain: a FAILED row is excluded, as no code ever retries one; with it nothing but a late mark of a stale worker can still publish it.
- Pipeline.DrainedPipelineConverges: takes no hypothesis that events decode, since an outbox with a transfer never drains; deposits and withdrawals that name SYSTEM_CASH are covered because only other accounts are compared.
- LedgerStaleness.StalenessIsExact: customers only; the key of SYSTEM_CASH is deleted only when it is a named party, so Redis may keep an old balance of it after any deposit or withdrawal.
- OutboxMachine.RowsInvStep: each mark is one atomic step; two marks of one row that overlap inside their transactions, and so lose a column, are not modelled.
- OutboxBackoff.RetriesWait: a stale worker whose clock is behind may shorten the wait by a further failed mark; clocks of different workers are not otherwise related.
- OutboxDrain.WorkerDrainsOutbox: that each batch starts once retries are due is a hypothesis; the poll interval and sleeping are not modelled.
- ConsumerMachine.EffectsAreExactlyOnce: upserts take effect at commit, which row locks on the projection make equivalent; deadlocks between two transfers' upserts are not modelled (the database aborts one, which is the crash step).
- ConsumerMachine.AcknowledgedMeansProcessed: a consumer is assumed to start at the committed offset of a partition or before it, as Kafka does.
- LedgerService.LedgerSession.CreateTransfer: of what other sessions may do meanwhile only the commit of the same key is in the method, the rest is in the machine; the savepoint of begin_nested is part of the one transaction, and the session's state after the commit inside it is SQLAlchemy's affair.
- UUIDs of transactions and events are fresh numbers; account ids keep their 128 bits because their order and text matter.
- Numeric overflow (20 against 18 digits) and malformed decimal texts; amounts are positive, as the request schemas require.
- An account's currency is fixed at creation and SYSTEM_CASH is one account known by id; the lookup by owner name is not modelled.
- The CHECK that entry amounts are not zero is in the model class but in no migration, so nothing rests on it.
- Per-currency zero sums: deposits and withdrawals never compare currencies with SYSTEM_CASH.
- Redis values are numbers by account; the key text and Decimal parsing are left to the reader.
- `get_transaction_history`, `create_account`, `is_event_processed`, routers, schemas, metrics, logging, start-up and shutdown: wiring or simple queries.
- PostgreSQL, SQLAlchemy, Kafka and Redis internals enter as assumptions: atomic commit, row locks, a unique key that waits for its uncommitted holder, an append-only log per partition, a key-value map.
