# Ledger state machine of toy_transaction, in Dafny

This project models the transaction engine of `toy_transaction`. The engine reads a stream of ledger
records: deposit, withdrawal, dispute, resolve and chargeback. Each record names a client (u16) and a
transaction id (u32). A deposit or withdrawal also carries an amount. The engine routes every record to a
per-client processor, which keeps an append-only history. At the end, each processor replays its history
from a zero balance and reports `available`, `held`, `total` and `locked`.

Modules, one per source file:

- `Transactions` (`transaction.dfy`): the record `TransactionInput` and the kind `TransactionType`.
  `ClientId` and `TxId` are subset types bounded to the u16 and u32 ranges. `amount` is an
  `Option<real>`.
- `RunningStates` (`running_state.dfy`): the per-client balance `RunningState` and its mutators, as pure
  functions from a state to a new state. `Balanced` is the invariant `available == total - held`.
- `Processors` (`processor.dfy`): a processor is a client plus its history. It has the lookup
  `FindTransaction`, one replay step `ProcessTransaction`, and the fold `Replay` / `ProcessTransactions`.
  `ProcessTransactionsLoop` is the same replay written as the source's loop.
- `ProcessorStates` (`processor_state.dfy`): the registry `EngineState`, a `map` from client id to
  processor. `Ingest` routes a whole input into a fresh registry.
- `Engine` (`engine.dfy`): the two phases of `process_transaction_file`. It ingests everything, then
  replays every client.
- `ProcessorTests` and `EngineTests`: the unit tests of `processor.rs`, plus a few extra scenarios, as
  lemmas. Each test is generalised from its fixed numbers to any client and any amounts that satisfy the
  relations the test relies on. The test's own values are one instance.

Modelling decisions:

- Amounts are exact `real`s instead of `f64`. The deposit guard is kept as written: `total + amount >
  total`. With exact arithmetic this guard is the same as `amount > 0`, and `RunningStates.Deposit`
  states it that way.
- `amount.unwrap()` on the record a dispute, resolve or chargeback refers to aborts the program when that
  record has no amount. The model does not forbid such histories with a precondition. It returns the
  outcome `Processors.MissingAmount(tx)` instead. A deposit or withdrawal without an amount is still just
  skipped when it is replayed itself. In the driver, any aborting client turns the whole run into
  `Engine.Aborted`.
- The lookup searches the whole history, later records included. So a dispute placed before its
  deposit still holds the deposit's amount (`ProcessorTests.DisputeBeforeItsDeposit`).
- Some behaviour is kept as the code has it, not fixed:
  - a locked account still accepts deposits (`ProcessorTests.LockedAccountStillTakesDeposits`);
  - a resolve does not check for an earlier dispute, so it can drive `held` negative
    (`ProcessorTests.ResolveWithoutDispute`);
  - a withdrawal can be disputed and charged back like a deposit.
- The registry's `HashMap` becomes a Dafny `map`. The driver's output becomes a map from client to final
  state, because the output order carries no meaning.

## Model

| member | source | states |
|---|---|---|
| RunningStates.New | src/transaction_engine/transaction_running_state.rs:21-29 | a fresh state has the given client, zero balances, is unlocked and balanced |
| RunningStates.CalculateAvailable | src/transaction_engine/transaction_running_state.rs:78-80 | the result satisfies `available == total - held`; client and lock are kept |
| RunningStates.Deposit | src/transaction_engine/transaction_running_state.rs:31-40 | for a positive amount: total grows by exactly that amount, held, client and lock are kept, the result is balanced, and on a balanced state available grows by the amount; for any other amount the state is unchanged |
| RunningStates.Withdraw | src/transaction_engine/transaction_running_state.rs:42-49 | when available covers the amount: total shrinks by it, held is kept and the result is balanced; an amount above available leaves the state unchanged |
| RunningStates.ChargebackDeposit | src/transaction_engine/transaction_running_state.rs:52-55 | total and held both drop by the amount and the account is locked; available is unchanged on a balanced state |
| RunningStates.ChargebackWithdrawal | src/transaction_engine/transaction_running_state.rs:57-60 | total rises and held drops by the amount and the account is locked; available rises by twice the amount on a balanced state |
| RunningStates.Hold | src/transaction_engine/transaction_running_state.rs:62-65 | held rises by the amount, total and lock are kept, and the amount leaves available |
| RunningStates.Release | src/transaction_engine/transaction_running_state.rs:67-70 | held drops by the amount, total and lock are kept, and the amount returns to available |
| RunningStates.Chargeback | src/transaction_engine/transaction_running_state.rs:72-76 | held drops by the amount, total is kept, the account becomes locked and the result is balanced |
| RunningStates.HoldThenRelease | src/transaction_engine/transaction_running_state.rs:62-70 | on a balanced state, releasing the amount just held gives back exactly the original state |
| RunningStates.MutatorsSucceed | src/transaction_engine/transaction_running_state.rs:20-81 | no public mutator changes the client or clears the lock |
| Processors.New | src/transaction_engine/processor.rs:12-17 | a new processor has the given client and an empty history |
| Processors.AddTransaction | src/transaction_engine/processor.rs:19-21 | the history grows by one record at the end; the client and earlier records are unchanged |
| Processors.FindTransaction | src/transaction_engine/processor.rs:73-81 | a found record is in the history and is a deposit or withdrawal with the requested id, never a dispute, resolve or chargeback |
| Processors.FindTransactionIsFirst | src/transaction_engine/processor.rs:73-81 | the lookup finds nothing exactly when no deposit or withdrawal has the id; otherwise it returns the earliest one in the whole history |
| Processors.ProcessTransaction | src/transaction_engine/processor.rs:33-71 | deposits and withdrawals never abort; one without an amount is a no-op; a dispute, resolve or chargeback with no target is a no-op; the step aborts exactly when the target has no amount; client and lock are kept and balance is preserved; a chargeback that finds its target always locks, so the invalid-target arm is unreachable |
| Processors.Replay | src/transaction_engine/processor.rs:26-28 | replaying any records keeps the client, never clears the lock and preserves the balance invariant |
| Processors.ProcessTransactions | src/transaction_engine/processor.rs:23-31 | a successful replay belongs to the processor's client and is balanced |
| Processors.ProcessTransactionsLoop | src/transaction_engine/processor.rs:23-31 | the source's loop over the history, starting from a fresh state, computes the fold `ProcessTransactions` |
| Processors.ReplaySnoc | src/transaction_engine/processor.rs:23-31 | replaying `xs + [t]` is replaying `xs` and then applying `t`; the replay is a left fold of the single step |
| Processors.FundsMovementsHoldNothing | src/transaction_engine/processor.rs:38-48 | a history of deposits and withdrawals only never aborts and leaves held unchanged, which is zero from a fresh state |
| Processors.DepositCredits | src/transaction_engine/processor.rs:39-43 | a deposit record with a positive amount raises total and available by that amount on a balanced state; a zero or negative amount leaves the state unchanged |
| Processors.WithdrawalDebits | src/transaction_engine/processor.rs:44-48 | a withdrawal covered by the available funds lowers total and available by its amount; one that exceeds the available funds leaves the state unchanged |
| Processors.ResolveReleases | src/transaction_engine/processor.rs:54-58 | resolving a found record of amount A moves exactly A from held back to available; total, client and lock are unchanged |
| Processors.DisputeHolds | src/transaction_engine/processor.rs:49-53 | disputing a found record of amount A moves exactly A from available to held; total and lock are unchanged |
| Processors.DisputeThenResolve | src/transaction_engine/processor.rs:49-58 | a resolve that follows a dispute of the same id restores the state before the dispute |
| Processors.ChargebackOfDeposit | src/transaction_engine/processor.rs:59-63 | charging back a found deposit of A lowers total and held by A and locks |
| Processors.ChargebackOfWithdrawal | src/transaction_engine/processor.rs:59-67 | charging back a found withdrawal of A raises total by A, lowers held by A and locks |
| Processors.LockedStaysLocked | src/transaction_engine/processor.rs:23-31 | once a replay prefix has locked the account, every longer successful replay is still locked |
| ProcessorStates.New | src/transaction_engine/processor_state.rs:10-14 | a new registry is empty |
| ProcessorStates.AddTransaction | src/transaction_engine/processor_state.rs:16-27 | the record's client becomes a key, with history `old + [t]`, or `[t]` for a new client; other clients' processors are unchanged; the key set only gains the record's client; routing keeps every processor under its own client with only that client's records |
| ProcessorStates.GetState | src/transaction_engine/processor_state.rs:29-31 | the map has the registry's keys, and on a routed registry each processor is filed under its own client |
| ProcessorStates.Ingest | src/lib.rs:18-23 | ingesting any input in order yields a routed registry |
| ProcessorStates.IngestPartitions | src/transaction_engine/processor_state.rs:16-27 | after ingestion the keys are exactly the clients mentioned, and each client's processor holds exactly that client's records in input order |
| Engine.Outcomes | src/lib.rs:26-30 | the replays of all ingested processors, one per mentioned client, each equal to that client's records replayed on their own |
| Engine.Run | src/lib.rs:18-30 | the run aborts exactly when some client's replay aborts; otherwise it reports one balanced state per mentioned client, equal to replaying that client's own records |
| Engine.OtherClientsDoNotInterfere | src/lib.rs:18-30 | adding a record for another client does not change a client's replay |
| ProcessorTests.HandleDeposit | src/transaction_engine/processor.rs:88-105 | a single deposit is fully available |
| ProcessorTests.HandleDepositAndWithdrawal | src/transaction_engine/processor.rs:107-130 | a covered withdrawal after a deposit leaves the difference |
| ProcessorTests.IgnoreWithdrawalBeyondAvailable | src/transaction_engine/processor.rs:132-155 | a withdrawal above the deposit is ignored |
| ProcessorTests.HandleDispute | src/transaction_engine/processor.rs:157-187 | [Dep a, Dep b, Dispute 2] ends at available a, held b, total a+b |
| ProcessorTests.HandleResolve | src/transaction_engine/processor.rs:189-227 | the resolve restores available a+b with nothing held |
| ProcessorTests.HandleChargebackOfDeposit | src/transaction_engine/processor.rs:229-266 | charging back the disputed deposit b ends at a/0/a, locked |
| ProcessorTests.HandleChargebackOfWithdrawal | src/transaction_engine/processor.rs:267-304 | charging back a disputed withdrawal b ends at a/0/a, locked |
| ProcessorTests.IgnoreChargebackOfUnknownTx | src/transaction_engine/processor.rs:306-343 | a chargeback of an unknown id leaves the disputed state a/b/a+b |
| ProcessorTests.IgnoreDisputeOfUnknownTx | src/transaction_engine/processor.rs:344-373 | a dispute of an unknown id leaves everything available |
| ProcessorTests.IgnoreSecondDisputeOfUnknownTx | src/transaction_engine/processor.rs:375-412 | the test as written, a second dispute of an unknown id, leaves a/b/a+b |
| ProcessorTests.IgnoreResolveOfUnknownTx | src/transaction_engine/processor.rs:54-58 | a resolve of an unknown id after a dispute leaves a/b/a+b |
| ProcessorTests.IgnoreNonPositiveDeposit | src/transaction_engine/processor.rs:414-437 | a deposit of zero, or of any non-positive amount, is ignored |
| ProcessorTests.DisputeBeforeItsDeposit | src/transaction_engine/processor.rs:73-81 | a dispute placed before its deposit still holds the deposit's amount, because the lookup sees the whole history |
| ProcessorTests.LockedAccountStillTakesDeposits | src/transaction_engine/processor.rs:38-43 | after a chargeback locks the account, a later deposit is still applied |
| ProcessorTests.ResolveWithoutDispute | src/transaction_engine/processor.rs:54-58 | a resolve with no earlier dispute makes held negative |
| ProcessorTests.DisputeOfAmountlessDeposit | src/transaction_engine/processor.rs:49-53 | disputing a deposit that has no amount aborts the replay |
| EngineTests.TwoClientsInterleaved | src/lib.rs:18-30 | two interleaved clients reusing tx 1 each end with their own balances |

## Left out

- Reading CSV, serde deserialisation and writing CSV to stdout (src/lib.rs:11-43, src/main.rs:28-40). This is I/O. The model starts from already parsed records. Out-of-range ids and malformed rows are parse errors there, so the model cannot represent them.
- Command-line handling and exit codes (src/main.rs:8-26).
- `round_serialize` (src/transaction_engine/transaction_running_state.rs:15-18). It is floating-point output formatting.
- `f64` behaviour: rounding error, NaN, and infinity. The `f64::MAX` test (src/transaction_engine/processor.rs:438-462) relies on `f64::MAX + 1.0 == f64::MAX` and has no counterpart over exact reals. Amounts that are NaN are rejected by both guards in the code; there is no NaN in `real`.
- `eprintln!` diagnostics. They print and change no state.
- `Engine.Run`: when several clients would abort, the code's panic comes from whichever processor the `HashMap` iteration reaches first. `Aborted` does not say which one, because that order is not modelled.
- The serde attributes of `TransactionType` and `TransactionInput` (src/transaction_engine/transaction.rs:3-26). Lowercase renaming and `invalid_option` belong to parsing. The type itself is modelled as the `Transactions` datatypes.

## Findings

| source | as written | input that shows it | evidently intended | confidence | as-written member | corrected member |
|---|---|---|---|---|---|---|
| src/transaction_engine/processor.rs:375-412 | the test `handle_ignore_resolve_if_invalid_transaction` builds its fourth record as a `Dispute` of tx 99, so no resolve is exercised | the fourth record of that test, of kind `Dispute`, client 1, tx 99 | the fourth record is a `Resolve` of tx 99, and the expected state 100/50/150 is the same | high for the mislabel; not executed | ProcessorTests.IgnoreSecondDisputeOfUnknownTx | ProcessorTests.IgnoreResolveOfUnknownTx |
