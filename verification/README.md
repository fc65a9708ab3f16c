# Wager-transaction engine: model and proofs

The system keeps player wallets for game providers. Providers send wager transactions (BET, WIN, LOSS, REFUND,
ROLLBACK); each is stored once per (provider, idempotency key), moves a wallet balance at most once, and leaves an
append-only ledger entry and outbox events. Any number of API and worker instances do this at the same time over one
PostgreSQL database, and each may crash at any point.

This project models that engine as a step system over the four tables, and proves what holds in **every state of every
interleaving**. Beside it stand the exact money arithmetic, the wallet aggregate, the ledger pages with reconciliation,
the outbox publisher, and the services written as imperative procedures that are proved to do what the step system does
when a call is alone.

`dafny verify dfyconfig.toml` checks everything.

## How it is built

| file | content |
|---|---|
| `Money.dfy` | int64 cents, overflow checks, decimal parser and printer |
| `Wallet.dfy` | the wallet class, its value-level meaning `Change`, ledger entries |
| `Transaction.dfy` | requests, rows, status machine, the transaction class |
| `Tables.dfy` | the four tables, what one database transaction writes, index guards, serial execution |
| `Machine.dfy` | program points of the three calls, locks, steps, crashes, foreign writes, runs |
| `Invariants.dfy`, `StoreProofs.dfy`, `ActorProofs.dfy`, `SystemProofs.dfy`, `Runs.dfy` | the invariant and its preservation by every step |
| `EngineTheorems.dfy` | results that need no assumption |
| `ExternalIds.dfy` | when (provider, external id) is unique |
| `Exclusive.dfy`, `ExclusiveProofs.dfy`, `References.dfy`, `ReversalTheorems.dfy` | results under the assumptions [R] and [U] |
| `Termination.dfy` | bounded steps, retry budget |
| `SoloRuns.dfy`, `Deferred.dfy` | calls without interference; the deferred path against the direct one |
| `Scenarios.dfy`, `Overlaps.dfy`, `Duplicates.dfy` | concrete runs: what fails without [R] and [U], and exactly which step breaks a terminal status |
| `KeyRaces.dfy` | races of requests: exactly when external ids are unique, and exactly when a call is answered with another payload's row |
| `DecisionTables.dfy` | what each call does when alone, as tables over columns, literal codes and amounts |
| `TableProofs.dfy` | the calls obey the tables |
| `Provenance.dfy` | in every interleaving: why parked rows are settled, what rows refer to, whose wallet it is |
| `Service.dfy` | the services as procedures on mutable tables |
| `LedgerPaging.dfy`, `Histories.dfy` | keyset pages, reconciliation, cursor texts, ledgers of every length |
| `Publisher.dfy` | outbox publishers |

A state `Sys` holds the committed store, the instances with their program points, and the committed writes in order. A
step is one unlocked query, one lock acquisition, the version-tested update, or one commit; what an instance does in
between touches only its memory. Reference lookups and the query for an earlier reversal are steps of their own, so
decisions rest on reads that may be stale by the time of the commit. `Exec(INIT, labels)` is the state after a sequence
of steps; a label that is not enabled changes nothing, so quantifying over `labels` is quantifying over all
interleavings of all calls.

Two assumptions appear by name:

* **[R]** `Exclusive.ExclusiveRun`: resolutions of the same row do not overlap. `UpdateStatusTx` has no status guard
  and the wallet-error path of the resolver releases its claim before it writes REJECTED. `Overlaps.OverlapOverwrites`
  is a run without [R] in which a PROCESSED row becomes REJECTED; `Overlaps.TerminalChangedExactly` says which steps do
  that, and `Overlaps.OverlapReversesTwice` shows that money can then move twice.
* **[U]** `ExternalIds.UniqueExternal`: no two rows share (provider, external id). No index enforces it.
  `KeyRaces.UniqueExactlyIfKeysAgree` says exactly for which workloads it holds in every interleaving: those in which no
  two requests that can be stored share the pair under different keys. Without it the reversal index may stop the
  resolution of a row more than once: `Termination.ResolutionTerminates` bounds how often, and
  `Duplicates.ConflictBoundAttained` reaches the bound for every n.

Calls made one after the other satisfy both (`SoloRuns.QuietRunsQualify`). A `Service.Database` object stands for any
reachable tables without a call in progress, whatever run of instances and foreign processes led to them; as long as
its own calls are all that was ever done (`SoloRuns.Quiet`), it enjoys all results.

### Decisions

* A row's id is its position in commit order. Ids are random UUIDs that are only compared, so this is a renaming.
* The payload hash is injective: a row stores the ten hashed request fields in its place. The empty string stands for
  SQL NULL.
* Unique indexes and the foreign key to wallets guard the commit of a write (the insert blocks until the competing
  transaction ends). The other constraints are not guards; `EngineTheorems.ChecksNeverFire` proves that they hold anyway.
* PENDING rows come from a foreign process, which may later settle them: BET and WIN together with their own balance
  change under the wallet lock, LOSS without one, any of them as REJECTED or FAILED.
* `Oracle` stands for what the outside decides: which of several matching rows a lookup returns, whether the query for
  an earlier reversal fails (its error is discarded by the source), and the generated wallet id.
* After a unique violation the source looks the key up twice with nothing in between that could matter; the model does
  so once.
* Versions and attempt counters are unbounded integers; money is int64 with every intermediate result checked.
* Texts are sequences of Unicode characters; where the source measures bytes, so does the model.
* The answer for a rejected or LOSS transaction carries a balance that is read in a step of its own after the commit, so
  other commits may come in between. A rejection whose balance cannot be read answers without one.

### Where the code and its documentation differ

The model follows the code.

* `ARCHITECTURE.md` says that hashed values are trimmed and normalised; they are hashed as they come
  (`internal/domain/idempotency.go`), so requests that differ in white space conflict.
* `ARCHITECTURE.md` says that the wallet lock lasts for select and update only; it lasts until the end of the transaction,
  which is what `EngineTheorems.VersionTestNeverFails` rests on. The optimistic version test can never fail.
* `ARCHITECTURE.md` says that `SKIP LOCKED` gives publishers disjoint batches; the locks end with the statement, so one
  event may be in n batches at once. `Publisher.BudgetAttained` shows the consequence.
* Ledger cursors are written as `time:id` and split at the first colon, which lies inside the timestamp.
  `LedgerPaging.NoCursorDecodes` proves that no cursor text can ever be decoded, and
  `LedgerPaging.ReconcileAsWritten` that reconciliation therefore fails for exactly the wallets with more than 1000
  entries, which do occur (`Histories.EveryLengthReached`). The other paging results are stated for cursors that denote
  their (time, id) pair.
* A payload conflict is detected at the first lookup of the key only; the loser of a race under one key is given the
  winner's row even if the payloads differ (`KeyRaces.OtherPayloadAnsweredExactly`).
* A REFUND credits whatever it refers to. `ReversalTheorems.ReversalsUndo` states exactly which reversals cancel their
  reference, and `Overlaps.RefundCreditsTwice` is a REFUND of a WIN that credits the wallet a second time.

## Model

| member | source | states |
|---|---|---|
| `MoneyValue.Add` | internal/money/money.go:151-170 | succeeds exactly if currencies agree and the true sum fits in int64, and then gives that sum |
| `MoneyValue.Subtract` | internal/money/money.go:172-185 | succeeds exactly if the true difference fits and the subtrahend is not MinInt64 |
| `MoneyValue.Negate` | internal/money/money.go:187-196 | fails exactly on MinInt64; otherwise adding the result gives zero |
| `MoneyValue.Compare` | internal/money/money.go:198-211 | zero exactly on equal values, negative exactly on smaller ones, an error exactly across currencies |
| `MoneyValue.IsDigits` | internal/money/money.go:111-123 | the loop accepts exactly nonempty digit strings |
| `MoneyValue.ParseUint` | internal/money/money.go:68-71 | the value of a digit string, or nothing exactly if it exceeds uint64 |
| `MoneyValue.ParseMoney` | internal/money/money.go:27-109 | the imperative parser computes Parse, with no wrap-around in any intermediate uint64 or int64 |
| `MoneyValue.ParseAccepts` | internal/money/money.go:58-108 | a decimal text parses to its exact cents, or overflows exactly beyond MaxInt64 |
| `MoneyValue.ParseSucceedsExactly` | internal/money/money.go:27-109 | parsing succeeds if and only if the currency is BRL and the text is digits with an optional point and one or two digits, within MaxInt64 |
| `MoneyValue.ParseRefuses` | internal/money/money.go:27-56 | the error of each rule about the text as a whole: currency, emptiness, outer spaces, NaN and exponents, inner separators, sign |
| `MoneyValue.ParseRefusesWhole` | internal/money/money.go:58-108 | a text that these rules pass and that has no dot is invalid unless all digits, and overflows beyond MaxInt64 cents |
| `MoneyValue.ParseRefusesParts` | internal/money/money.go:58-108 | with one dot: the error of the first part that is wrong, as for `1.234` or `1.` |
| `MoneyValue.ParseRefusesDots` | internal/money/money.go:58-61 | with two dots or more the text is invalid |
| `MoneyValue.ByteLengths` | internal/money/money.go:81-91 | the byte length that the scale check measures adds one to four bytes a character |
| `MoneyValue.TextIsExact` | internal/money/money.go:221-234 | the printed text denotes the exact amount for every int64, MinInt64 included |
| `MoneyValue.ParseText` | internal/money/money.go:221-234 | printing and parsing is the identity on nonnegative amounts |
| `MoneyValue.NegativeTextRefused` | internal/money/money.go:54-56 | the text of a negative amount is refused as negative |
| `WalletAggregate.Rehydrate` | internal/wallet/wallet.go:71-134 | a stored wallet is accepted exactly if id, player and provider are not blank, the balance is a nonnegative BRL amount and the version is positive; each failure has the error of the first rule that it breaks |
| `WalletAggregate.Change` | internal/wallet/wallet.go:222-284 | a movement succeeds exactly if it is positive, in the wallet's currency, and the exact new balance lies in [0, MaxInt64]; then before, after and version are exact, and otherwise the error names which of these failed |
| `WalletAggregate.ChangeUndone` | internal/wallet/wallet.go:222-284 | a movement and its opposite restore the balance, two versions on |
| `WalletAggregate.Wallet.Debit` | internal/wallet/wallet.go:222-254 | updates balance and version as Change says, and nothing on failure |
| `WalletAggregate.Wallet.Credit` | internal/wallet/wallet.go:256-284 | updates balance and version as Change says, and nothing on failure |
| `WalletAggregate.NewLedgerEntry` | internal/wallet/ledger_entry.go:28-92 | accepts exactly entries in one currency whose after-balance is the exact sum or difference; each refusal has the error of the first rule broken |
| `Transactions.TransitionsDescend` | internal/wagertransaction/transaction.go:274-283 | the status machine has no cycle and ends exactly in the terminal statuses |
| `Transactions.Prepare` | internal/wagertransaction/service.go:128-153 | what passes kind, amount and constructor checks is a well-formed transaction of this request and key |
| `Transactions.NewExternalTransaction` | internal/wagertransaction/transaction.go:62-116 | succeeds exactly if the kind is not OPENING, all identifiers are present, and the amount is zero for LOSS and positive otherwise; each refusal has the error of the first rule broken |
| `Transactions.EffectiveKey` | internal/wagertransaction/service.go:94-99 | the key a call uses is never empty; which key it is, `Service.Database.ProcessTransaction` states |
| `Transactions.Transaction.TransitionTo` | internal/wagertransaction/transaction.go:213-227 | moves exactly along the status machine; a terminal transaction never changes |
| `Tables.FindKey` | internal/infra/db/wager_transaction_repository.go:56-71 | finds a row of the key, or there is none |
| `Tables.FindExternal` | internal/infra/db/wager_transaction_repository.go:39-54 | finds some row of the external id, or there is none |
| `SystemProofs.ReachableInv` | internal/wagertransaction/service.go:86-789 | the invariant (rows, books, events, locks, program points, serial log) holds after every step of every run |
| `Runs.ExecEvolves` | internal/infra/db/wager_transaction_repository.go:237-282 | along every run rows keep their fixed columns and recorded results, and ledger and outbox are append-only |
| `EngineTheorems.SerialEquivalence` | internal/wagertransaction/service.go:986-1038 | for every interleaving with crashes, the whole store equals that of the committed transactions executed one at a time in commit order, each recomputing its balance change |
| `EngineTheorems.LedgerChains` | internal/wallet/service.go:241-316 | the entries of a wallet chain without gap from zero to the stored balance, so no update is lost |
| `EngineTheorems.Conservation` | internal/infra/db/ledger_repository.go:124-141 | in every reachable state each balance is credits minus debits over exact integers, lies in [0, MaxInt64], and the version is 1 plus the number of non-opening entries |
| `EngineTheorems.ChecksNeverFire` | migrations/000003_create_wallet_ledger_entries.up.sql:20-53 | every reachable table satisfies the constraints that the step system does not check: exact entries, one entry per transaction, one opening per wallet, nonnegative amounts |
| `EngineTheorems.BalanceEventsComplete` | internal/wagertransaction/service.go:1129-1177 | a wallet's balance events carry consecutive versions up to the stored one, from 2 or from 1 with an opening, and replaying them gives the balance |
| `EngineTheorems.EventsEncodable` | internal/money/money.go:244-260 | every amount in every emitted event is a nonnegative BRL amount that round-trips as text, so the ignored marshal errors cannot occur |
| `EngineTheorems.SingleReversal` | migrations/000010_add_double_reversal_index.up.sql:1-5 | at most one PROCESSED reversal points at a row, though the check for one may be stale or fail |
| `ReversalTheorems.OneReversalEntry` | migrations/000010_add_double_reversal_index.up.sql:1-5 | [R] at most one ledger entry belongs to a reversal of a given row |
| `Overlaps.OverlapReversesTwice` | internal/wagertransaction/service.go:703-746 | a run without [R] in which a late rejection frees the index and one row is reversed by two ledger entries |
| `EngineTheorems.OneRowPerKey` | migrations/000002_create_wager_transactions.up.sql:90-93 | at most one row per (provider, key), whatever its status, for any number of concurrent deliveries and crashes |
| `EngineTheorems.EffectAtMostOnce` | internal/wagertransaction/service.go:624-637 | at most one ledger entry for the row of a key, for any number of deliveries and competing resolvers |
| `EngineTheorems.KeyKeepsRow` | internal/wagertransaction/service.go:101-118 | the row of a key in some state is the row of that key in every later state |
| `EngineTheorems.RepliesAgree` | internal/wagertransaction/service.go:86-177 | two answers for the same provider and key, at any two times of a run, carry the same row id |
| `EngineTheorems.VersionTestNeverFails` | internal/infra/db/wallet_repository.go:153-167 | an instance at its update finds the version that it read under the lock, so the concurrent-update error is unreachable |
| `EngineTheorems.CommitStoresReportedVersion` | internal/wallet/service.go:280-315 | the commit of a balance change stores exactly the reported balance and version |
| `EngineTheorems.RecordedReplay` | internal/wagertransaction/service.go:179-194 | whenever a call of the same payload looks up the key of a row with a recorded result, it gets that row's id, status and balance and changes no table, even if the writer crashed |
| `EngineTheorems.StableReplay` | internal/wagertransaction/service.go:101-115 | repeating a BET, WIN, REFUND or ROLLBACK that was answered PROCESSED gives the same id, status and balance in every later state, whatever happens in between, and changes no table |
| `EngineTheorems.PayloadConflictRefused` | internal/wagertransaction/service.go:106-113 | in every reachable state, a call with another payload that finds the key taken at its first lookup is refused and changes no table |
| `KeyRaces.OtherPayloadAnsweredExactly` | internal/wagertransaction/service.go:170-175 | in every interleaving a call is answered with the row of another payload if and only if the key index refused its own row in favour of one: the lookup after a conflict does not compare payloads |
| `KeyRaces.LoserGetsOtherRow` | internal/wagertransaction/service.go:170-175 | a race of two payloads under one key whose loser gets the winner's row as a replay |
| `EngineTheorems.ParkedReferenceFound` | internal/wagertransaction/service.go:643-651 | the resolver always finds a row for the reference of a parked row, so its not-found branch is never taken |
| `ExternalIds.ReachableDelivered` | internal/wagertransaction/service.go:86-177 | in every run each row but an opening is of a request that arrived and passed the checks, or that a foreign process sent |
| `ExternalIds.AgreeingKeysUnique` | internal/wagertransaction/service.go:120-126 | if whatever may be stored under one (provider, external id) comes under one key, external ids are unique in every interleaving |
| `ExternalIds.DerivedKeysUnique` | internal/adapters/workers/helper.go:22-28 | so keys of the form provider:externalId suffice |
| `KeyRaces.PreparedStores` | internal/wagertransaction/service.go:128-168 | a request that passes the checks, alone with its wallet present and its key free, stores exactly one row, whatever its kind |
| `KeyRaces.RacingKeysStoreBoth` | internal/wagertransaction/service.go:120-126 | any two requests that can be stored and share an external id under different keys have an interleaving that stores both |
| `KeyRaces.UniqueExactlyIfKeysAgree` | internal/wagertransaction/service.go:94-126 | external ids are unique in every interleaving of a workload if and only if no two of its requests that can be stored share an external id under different keys |
| `ExternalIds.SequentialCallsUnique` | internal/wagertransaction/service.go:120-126 | if calls run one at a time, external ids are unique for arbitrary keys |
| `ExclusiveProofs.ReachableR` | internal/wagertransaction/service.go:615-789 | [R] row, ledger, references, budget and event histories stay consistent in every run |
| `References.ReachableU` | internal/wagertransaction/service.go:1056-1073 | [U] a stored internal reference names an earlier row that passed the checks against the reversal; `Provenance.ReferencesAgree` says column by column what that means |
| `Provenance.ReferencesAgree` | internal/wagertransaction/service.go:1056-1073 | [U] every processed REFUND or ROLLBACK, and every parked row, has the provider, player, wallet, round and currency of the row that it refers to |
| `Provenance.WinsReferToBets` | internal/wagertransaction/service.go:239-266 | in every interleaving each WIN that the service processed names no reference, or a BET of its provider, player, wallet, round and currency |
| `Provenance.SettledForAReason` | internal/wagertransaction/service.go:639-663 | in every interleaving a parked row leaves PENDING_REFERENCE only if a row that it refers to is terminal or ten attempts have been counted |
| `Provenance.LateClaim` | internal/wagertransaction/service.go:624-637 | whoever claims a row that was settled meanwhile changes nothing and answers with the status that it had read |
| `Provenance.OneWalletEach` | migrations/000008_add_wallet_provider_id.up.sql:5-8 | in every reachable state no two wallets share player, provider and currency |
| `Provenance.LateOpening` | internal/wallet/service.go:61-71 | whoever is about to open a wallet whose identifier or owner was taken meanwhile is refused as a duplicate, and nothing changes |
| `ReversalTheorems.ParkingEvents` | internal/wagertransaction/service.go:405-441 | in every run, exactly the rows that some earlier state had in PENDING_REFERENCE have a parking event |
| `ReversalTheorems.RowLedgerOutboxAgree` | internal/wagertransaction/service.go:986-1038 | [R] a row has exactly one ledger entry, of its amount and wallet, if and only if it is PROCESSED and not LOSS; its events are the parking event if and only if it was ever parked, and then the event of its end |
| `ReversalTheorems.TerminalAbsorbing` | internal/wagertransaction/transaction.go:209-227 | [R] once a row is PROCESSED, REJECTED or FAILED nothing in the rest of the run changes it |
| `ReversalTheorems.ReversalsUndo` | internal/wagertransaction/service.go:571-605 | [R][U] every processed reversal, on either path, has an entry of the wallet and amount of its reference's entry; the two cancel out if and only if it is a ROLLBACK or the reference debited, as every BET does |
| `ReversalTheorems.ReversalChains` | internal/wagertransaction/service.go:447-483 | [R][U] processed reversals form chains that strictly descend in commit order, end in a non-reversal row, and are disjoint unless one is part of the other |
| `ReversalTheorems.ChainsDisjoint` | migrations/000010_add_double_reversal_index.up.sql:1-5 | two chains that share a row are nested |
| `Termination.StepsBounded` | internal/wagertransaction/service.go:86-789 | in every reachable state every enabled step of an unfinished call, commits included, brings it nearer to its end, unless the id generated for a new wallet is blank or taken |
| `Termination.CallsTakeTenSteps` | internal/wagertransaction/service.go:86-789 | in every interleaving a call takes at most ten steps of its own |
| `Termination.WaitsAreAttempts` | internal/infra/db/wager_transaction_repository.go:196-208 | ref_attempts counts exactly the finished calls that left the row waiting, in every run |
| `Termination.WaitsBounded` | internal/wagertransaction/service.go:639-641 | [R] at most ten finished calls leave a row waiting |
| `Termination.ParkedEndsCounted` | internal/wagertransaction/service.go:643-789 | in every run the resolutions of a row that ended with it still parked number at most its waits and index conflicts |
| `Termination.ResolutionTerminates` | internal/wagertransaction/service.go:613-789 | [R] without failing queries: at most ten waits, at most one conflict for each row that matches the reference and has been reversed, and at most ten plus that many resolutions that end with the row still parked |
| `Termination.OneConflict` | internal/wagertransaction/service.go:613-789 | [R][U] without failing queries: at most one conflict, and at most eleven resolutions that end with the row still parked |
| `Termination.ResolutionEnds` | internal/wagertransaction/service.go:643-789 | a resolution that ends leaves the row terminal or is counted as a wait or an index conflict |
| `SoloRuns.SoloIsRun` | internal/wagertransaction/service.go:86-177 | a call that meets no lock is a run of the step system |
| `SoloRuns.QuietRunsQualify` | internal/wagertransaction/service.go:86-177 | calls made one after the other satisfy [R] and [U] |
| `TableProofs.ProcessProof` | internal/wagertransaction/service.go:86-177 | from any tables with the invariant, ProcessTransaction alone answers and stores what the column-level tables of `DecisionTables` prescribe for its request: replay, conflict, reuse, each refusal of the checks, and for each kind the row, wallet, ledger entry, events and answer, with the code of the first column that differs from the reference |
| `TableProofs.ResolveProof` | internal/wagertransaction/service.go:615-789 | likewise ResolvePendingReference: unknown, no longer parked, out of attempts, or decided by a row that matches the reference |
| `TableProofs.WaitProof` | internal/wagertransaction/service.go:653-663 | while attempts are left and no matching row is settled, the resolver waits: the row stays PENDING_REFERENCE, one attempt more is counted, nothing else changes, and the answer says so |
| `TableProofs.CreateProof` | internal/wallet/service.go:37-158 | CreateWallet under a fresh identifier succeeds exactly for a player and a provider that are not blank, a nonnegative BRL amount and no wallet of that owner; it stores the wallet at version 1 and, for money, one OPENING row, one CREDIT entry from zero and two events; each refusal has its own error |
| `TableProofs.AppendedUnderKey` | internal/wagertransaction/service.go:94-99 | whatever row a call appends is the one row of its request, under the header's key, else the body's, else provider:externalId |
| `TableProofs.HeaderDecides` | internal/wagertransaction/service.go:94-118 | two successive calls of one request with the same nonempty header, whatever their body keys, store at most one row, and if the first is answered, the second is answered with the same id |
| `Deferred.ReferenceEnds` | internal/wagertransaction/service.go:378-611 | from the lookup of a terminal reference on, both paths leave the store that one decision table prescribes |
| `Deferred.ReachableBuilt` | internal/wagertransaction/service.go:398-441 | in every run each parked row is what the request checks build from its own request and key |
| `Deferred.DeferredRefinesDirect` | internal/wagertransaction/service.go:615-789 | [U] a parked reversal resolved with fewer than ten attempts against a terminal reference gets the status, failure code, internal reference, wallet change, ledger entry and closing events of the same request processed directly in that state; both leave all other rows alone |
| `Overlaps.TerminalChangedExactly` | internal/wagertransaction/service.go:703-746 | in every reachable state, without [R], a step changes a terminal row if and only if it is the late rejection of a resolver that had released its claim |
| `Overlaps.OverlapOverwrites` | internal/infra/db/wager_transaction_repository.go:266-282 | a run without [R] in which a PROCESSED row becomes REJECTED |
| `Overlaps.RaceDuplicatesExternal` | internal/wagertransaction/service.go:120-126 | a run in which two rows share one external id under different keys |
| `Duplicates.ConflictBoundAttained` | internal/wagertransaction/service.go:675-765 | for every n a run within [R] and without failing queries in which n rows share an external id and the index stops one resolution n times, as often as the bound allows |
| `Overlaps.RefundCreditsTwice` | internal/wagertransaction/service.go:447-483 | a run of calls made one after the other that ends in a PROCESSED REFUND of a WIN whose two entries do not cancel out |
| `Service.Database.CreateTransactionTx` | internal/infra/db/wager_transaction_repository.go:237-264 | appends the row exactly if its wallet exists, no row has its provider and key, and, for a successful reversal, no other one points at its reference |
| `Service.Database.SetInternalReferenceTx` | internal/infra/db/wager_transaction_repository.go:102-111 | sets the reference unless the index of successful reversals refuses |
| `Service.Database.UpdateBalanceTx` | internal/infra/db/wallet_repository.go:153-167 | updates balance and version exactly if the expected version is stored |
| `Service.Database.CreateOutboxEventsTx` | internal/wagertransaction/service.go:1020-1028 | the loop appends all events in order |
| `Service.Database.ApplyBalanceChange` | internal/wallet/service.go:241-316 | result and wallet row are what Change says of the stored wallet; nothing changes on failure |
| `Service.Database.CommitWithLedger` | internal/wagertransaction/service.go:986-1038 | the statements together apply one write, or restore the tables if an index refuses the row |
| `Service.Database.HandleReplay` | internal/wagertransaction/service.go:179-194 | answers what the step system answers and changes nothing |
| `Service.Database.MoveMoney` | internal/wagertransaction/service.go:196-237 | the common end of BET, WIN, REFUND and ROLLBACK: tables and answer of the step system from the wallet lock on |
| `Service.Database.ProcessWin` | internal/wagertransaction/service.go:239-305 | tables and answer of the step system for a WIN |
| `Service.Database.ReadBalance` | internal/wagertransaction/service.go:978-983 | the balance read after a commit: a failed read is an error for a LOSS and ignored for a rejection |
| `Service.Database.ProcessLoss` | internal/wagertransaction/service.go:307-376 | tables and answer of the step system for a LOSS, with the balance read again after the commit |
| `Service.Database.ProcessReversal` | internal/wagertransaction/service.go:378-611 | tables and answer of the step system for a REFUND or ROLLBACK with a reference |
| `Service.Database.CreateAndReject` | internal/wagertransaction/service.go:889-931 | stores the rejection if it can be stored, and reports the wallet's error either way |
| `Service.Database.ProcessTransaction` | internal/wagertransaction/service.go:86-177 | on any reachable tables without a call in progress, tables and answer equal those of the step system and obey the decision table, under the key that the header, the body or provider:externalId gives, in this order; the tables remain reachable |
| `Service.Database.ResolveClaimed` | internal/wagertransaction/service.go:643-770 | tables and answer of the step system for a claimed row |
| `Service.Database.ResolveReject` | internal/wagertransaction/service.go:791-887 | settles the row as REJECTED with its event |
| `Service.Database.ResolvePendingReference` | internal/wagertransaction/service.go:615-789 | on any reachable tables without a call in progress, tables and answer equal those of the step system and obey the decision table; it waits while no matching row is settled and attempts are left; the tables remain reachable |
| `Service.Database.CreateWallet` | internal/wallet/service.go:37-158 | tables and answer equal those of the step system and obey the decision table for a fresh identifier; the tables remain reachable |
| `Service.SequentialBooks` | internal/wallet/service.go:241-316 | however many calls were made one after the other, balances are conserved, external ids unique, and exactly the processed rows that move money have an entry |
| `LedgerPaging.OrderedPermutes` | internal/infra/db/ledger_repository.go:49-54 | ordering neither loses nor repeats an entry |
| `LedgerPaging.OrderedIncreasing` | internal/infra/db/ledger_repository.go:49-54 | by time, and for equal times by id, the order is strict |
| `LedgerPaging.OfWalletComplete` | internal/infra/db/ledger_repository.go:49-54 | every entry of the wallet is read |
| `LedgerPaging.OfWalletSound` | internal/infra/db/ledger_repository.go:49-54 | and nothing else is read |
| `LedgerPaging.PageFrom` | internal/infra/db/ledger_repository.go:70-80 | the page behind any row is exactly the next `limit` rows, with a cursor exactly if more follow |
| `LedgerPaging.WalkPages` | internal/infra/db/ledger_repository.go:39-122 | for every limit the walk ends and concatenates to the whole ordered ledger |
| `LedgerPaging.ScanEntries` | internal/infra/db/ledger_repository.go:87-112 | the row loop returns all rows, or fails exactly if one cannot be rehydrated |
| `LedgerPaging.FindByWalletID` | internal/infra/db/ledger_repository.go:39-122 | one row more than the limit decides about the next cursor; limits below one mean 50 |
| `LedgerPaging.CountEntries` | internal/wallet/service.go:336-357 | the loop ends and counts every entry of the wallet |
| `LedgerPaging.Reconcile` | internal/wallet/service.go:318-386 | reports stored and ledger balance, their exact difference, and consistency exactly if they agree |
| `LedgerPaging.ReconcileReachable` | internal/wallet/service.go:318-386 | in every reachable state it checks every entry and reports a zero difference |
| `LedgerPaging.NoCursorDecodes` | internal/infra/db/ledger_repository.go:57-66 | no cursor text can be decoded |
| `LedgerPaging.FindByText` | internal/infra/db/ledger_repository.go:39-122 | with text cursors, the first page as above for every limit, and an error for every cursor that does not decode |
| `LedgerPaging.CountEntriesAsWritten` | internal/wallet/service.go:336-357 | with text cursors the count is right for wallets with at most 1000 entries and fails for all others |
| `LedgerPaging.ReconcileAsWritten` | internal/wallet/service.go:318-386 | in every reachable state, with text cursors, it reports a zero difference over all entries for exactly the wallets with at most 1000 entries and fails for every other wallet |
| `Histories.EveryLengthReached` | internal/wallet/service.go:336-357 | for every n some run gives a wallet exactly n entries, so both cases occur |
| `Publisher.Outbox.Publish` | internal/adapters/workers/outbox_publisher.go:90-159 | the event becomes published exactly if it had fewer than 5 attempts and its send was accepted, counts one attempt more exactly if it had fewer than 5 and its send was refused, and no other row or column changes |
| `Publisher.Outbox.PublishBatch` | internal/adapters/workers/outbox_publisher.go:76-82 | for a batch of distinct events, each is handled once like that |
| `Publisher.BatchHandled` | internal/adapters/workers/outbox_publisher.go:76-159 | a batch of distinct events handles each by its own send and leaves all other events alone |
| `Publisher.BatchIsRun` | internal/adapters/workers/outbox_publisher.go:44-88 | the loop's effect is reached by a run in which only that worker moves |
| `Publisher.PublishedExactly` | internal/adapters/workers/outbox_publisher.go:120-158 | in every run an event is published if and only if an accepted send of it was followed by that worker's successful write |
| `Publisher.PollReturns` | internal/infra/db/inbox_outbox_repository.go:95-106 | a poll returns at most ten distinct events with their attempts, none of them published |
| `Publisher.PublishedForGood` | internal/infra/db/inbox_outbox_repository.go:95-106 | from then on the event stays published, and no poll returns it |
| `Publisher.PublisherBudget` | internal/adapters/workers/outbox_publisher.go:98-108 | with n publishers an event is published only after a send of its payload succeeded, and its attempts never exceed 4 + n |
| `Publisher.BudgetAttained` | internal/infra/db/inbox_outbox_repository.go:95-106 | the bound is reached for every n of at least one |

## Left out

- KeyRaces.UniqueExactlyIfKeysAgree: lets foreign processes store only requests of the workload that pass the checks; AgreeingKeysUnique has no such restriction.
- WalletAggregate.Rehydrate: does not check the two timestamps, because time is not modelled.
- LedgerPaging.CountEntries: follows cursors that denote their pair; the loop with the source's text cursors is CountEntriesAsWritten.
- LedgerPaging.Reconcile: uses cursors that denote their pair; the version with text cursors is ReconcileAsWritten.
- LedgerPaging.ReconcileReachable: says what reconciliation would report if cursors could be decoded; ReconcileAsWritten says what it does report.
- Database failures: begin, commit and query errors other than constraint violations end a call like a crash and are not told apart from one.
- Deferred.DeferredRefinesDirect: compares with the same request under a fresh external id and key, since the parked row itself occupies its own; the stored result balance is not compared, because the deferred path stores none.
- Rows without a payload hash: the source skips the payload comparison for them; here every row has its request, also one that a foreign process stored.
- Inbox deduplication: its result is discarded by the source, so idempotency rests on the key alone.
- Deadlock freedom, lock modes of foreign keys, isolation levels: only safety is modelled.
- Wallet Debit and Credit without a transaction, UpdateBalance, Create and UpdateStatus outside a transaction: the engine does not use them.
- Format checks of UUID columns: identifiers are arbitrary nonempty strings.
- Timestamps, retry delays and back-off, apart from the order that ledger pages need.
- SHA-256 and JSON text: the hash is injective, encodable amounts are those the encoder accepts.
- int64 overflow of wallet versions and int overflow of attempt counters.
- Publisher liveness, ordering and exactly-once delivery: an abandoned event stays in the pending query, and a send may be repeated.
- HTTP, authentication, queue clients, configuration, metrics and health checks.
